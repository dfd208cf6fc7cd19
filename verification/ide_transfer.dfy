/**
  WRITE SECTORS and READ SECTORS as a driver runs them, register access by register access, in
  each of the three widths.
 */
module IdeTransfer {
  import opened Basics
  import opened Ide
  import opened IdeSafety
  import opened IdeSectors

  lemma {:induction false} RunAppend(c: Controller, a: seq<Access>, b: seq<Access>)
    requires AllSettled(c)
    ensures AllSettled(Run(c, a).0)
    ensures Run(c, a + b) == (Run(Run(c, a).0, b).0, Run(c, a).1 + Run(Run(c, a).0, b).1)
    decreases |a|
  {
    hide Do, AllSettled, Kept;
    RunKept(c, a);
    KeptSettled(c, Run(c, a).0);
    if a == [] {
      assert a + b == b;
      assert [] + Run(c, b).1 == Run(c, b).1;
    } else {
      SettledOk(c);
      var (c1, v) := Do(c, a[0]);
      DoKept(c, a[0]);
      KeptSettled(c, c1);
      RunAppend(c1, a[1..], b);
      assert (a + b)[1..] == a[1..] + b;
      var r := Run(c1, a[1..]);
      Associative(v, r.1, Run(r.0, b).1);
    }
  }

  lemma Associative(v: Word, a: seq<Word>, b: seq<Word>)
    ensures [v] + (a + b) == [v] + a + b
  {
  }

  // ---------- the three widths ----------

  datatype Mode = Eight | Sixteen | Latched

  // A width goes with the drive's own setting: bytes in 8-bit mode, words otherwise.
  predicate Matches(mode: Mode, d: Drive)
  {
    mode == Eight <==> d.eightbit
  }

  function Width(mode: Mode): (n: nat)
    ensures n == 1 || n == 2
  {
    if mode == Eight then 1 else 2
  }

  function PutOne(mode: Mode, bytes: Bytes): (accesses: seq<Access>)
    requires |bytes| == Width(mode)
  {
    match mode
    case Eight => [Write8(DATA, bytes[0])]
    case Sixteen => [Write16(DATA, Pair(bytes[0], bytes[1]))]
    case Latched => [WriteLatched(LATCH, bytes[1]), WriteLatched(DATA, bytes[0])]
  }

  // The accesses that hand data over.
  function Puts(mode: Mode, data: Bytes): (accesses: seq<Access>)
    requires |data| % Width(mode) == 0
    decreases |data|
  {
    if data == [] then [] else PutOne(mode, data[..Width(mode)]) + Puts(mode, data[Width(mode)..])
  }

  function GetOne(mode: Mode): (accesses: seq<Access>)
  {
    match mode
    case Eight => [Read8(DATA)]
    case Sixteen => [Read16(DATA)]
    case Latched => [ReadLatched(DATA), ReadLatched(LATCH)]
  }

  // The accesses that take n bytes.
  function Gets(mode: Mode, n: nat): (accesses: seq<Access>)
    requires n % Width(mode) == 0
    decreases n
  {
    if n == 0 then [] else GetOne(mode) + Gets(mode, n - Width(mode))
  }

  // The bytes those accesses brought.
  function Taken(mode: Mode, words: seq<Word>): (bytes: Bytes)
    decreases |words|
  {
    if words == [] then []
    else (if mode == Sixteen then [words[0] % 256, words[0] / 256] else [words[0] % 256]) + Taken(mode, words[1..])
  }

  lemma {:induction false} TakenAppend(mode: Mode, a: seq<Word>, b: seq<Word>)
    ensures Taken(mode, a + b) == Taken(mode, a) + Taken(mode, b)
    decreases |a|
  {
    if a == [] {
      assert a + b == b;
    } else {
      assert (a + b)[1..] == a[1..] + b;
      TakenAppend(mode, a[1..], b);
    }
  }

  // ---------- data over the registers ----------

  ghost predicate Alone(c: Controller, c': Controller)
  {
    c'.selected == c.selected && (if c.selected == 0 then c'.drive1 == c.drive1 else c'.drive0 == c.drive0)
  }

  // One access of any width is one access to the selected drive's buffer.
  lemma PutOneIs(c: Controller, mode: Mode, bytes: Bytes)
    requires AllSettled(c) && |bytes| == Width(mode) && Matches(mode, c.Selected())
    requires c.Selected().present && !c.Selected().task.status.bsy
    ensures var v: Word := if mode == Eight then bytes[0] else Pair(bytes[0], bytes[1]);
            && Carried(c.Selected(), v) == bytes
            && var c' := Run(c, PutOne(mode, bytes)).0;
               c'.Selected() == DataOut(c.Selected(), v) && Alone(c, c')
  {
    hide DataOut, Settled;
    SettledOk(c);
    RunOne(c, Write8(DATA, bytes[0]));
    if mode != Eight {
      RunOne(c, Write16(DATA, Pair(bytes[0], bytes[1])));
      RunTwo(c, WriteLatched(LATCH, bytes[1]), WriteLatched(DATA, bytes[0]));
    }
  }

  lemma RunOne(c: Controller, a: Access)
    requires AllSettled(c)
    ensures Ok(c) && Run(c, [a]) == (Do(c, a).0, [Do(c, a).1])
  {
    hide Do, AllSettled, Kept;
    SettledOk(c);
    DoKept(c, a);
    KeptSettled(c, Do(c, a).0);
    assert [a][1..] == [];
    var (c1, v) := Do(c, a);
    RunEmpty(c1);
    assert Run(c1, [a][1..]) == (c1, []);
    assert [v] + [] == [v];
  }

  lemma RunEmpty(c: Controller)
    requires AllSettled(c)
    ensures Run(c, []) == (c, [])
  {
  }

  lemma RunTwo(c: Controller, a: Access, b: Access)
    requires AllSettled(c)
    ensures Ok(c) && AllSettled(Do(c, a).0) && Ok(Do(c, a).0)
    ensures Run(c, [a, b]) == (Do(Do(c, a).0, b).0, [Do(c, a).1, Do(Do(c, a).0, b).1])
  {
    hide Do, AllSettled, Kept, Run;
    assert [a, b] == [a] + [b];
    RunOne(c, a);
    DoKept(c, a);
    var c1 := Do(c, a).0;
    KeptSettled(c, c1);
    RunOne(c1, b);
    RunAppend(c, [a], [b]);
    assert [Do(c, a).1] + [Do(c1, b).1] == [Do(c, a).1, Do(c1, b).1];
  }

  // A transfer out, of the drive that was selected when it started.
  ghost predicate Sending(c0: Controller, c: Controller, n: nat, data: Bytes)
  {
    AllSettled(c) && Alone(c0, c) && c0.Selected().present && Sent(c0.Selected(), c.Selected(), n, data)
  }

  lemma SendOne(c0: Controller, c: Controller, n: nat, sent: Bytes, mode: Mode, bytes: Bytes)
    requires Sending(c0, c, n, sent) && |sent| < 512 * n && |bytes| == Width(mode) && Matches(mode, c.Selected())
    ensures var c' := Run(c, PutOne(mode, bytes)).0;
            Sending(c0, c', n, sent + bytes) && Matches(mode, c'.Selected())
  {
    hide DataOut, AllSettled, Kept, Run, Carried, WriteAt, AllHealthy;
    RunKept(c, PutOne(mode, bytes));
    KeptSettled(c, Run(c, PutOne(mode, bytes)).0);
    PutOneIs(c, mode, bytes);
    OneOut(c0.Selected(), c.Selected(), n, sent, if mode == Eight then bytes[0] else Pair(bytes[0], bytes[1]));
  }

  lemma {:induction false} PutsSend(c0: Controller, c: Controller, n: nat, sent: Bytes, mode: Mode, data: Bytes)
    requires Sending(c0, c, n, sent) && |sent| + |data| == 512 * n
    requires |data| % Width(mode) == 0 && Matches(mode, c.Selected())
    ensures Sending(c0, Run(c, Puts(mode, data)).0, n, sent + data)
    decreases |data|
  {
    hide Sending, Run, PutOne, Matches;
    if data == [] {
      assert sent + data == sent;
      RunNothing(c0, c, n, sent);
    } else {
      SendingSettled(c0, c, n, sent);
      var bytes, rest := data[..Width(mode)], data[Width(mode)..];
      RunAppend(c, PutOne(mode, bytes), Puts(mode, rest));
      SendOne(c0, c, n, sent, mode, bytes);
      PutsSend(c0, Run(c, PutOne(mode, bytes)).0, n, sent + bytes, mode, rest);
      assert sent + bytes + rest == sent + data;
    }
  }

  lemma SendingSettled(c0: Controller, c: Controller, n: nat, sent: Bytes)
    requires Sending(c0, c, n, sent)
    ensures AllSettled(c)
  {
  }

  lemma RunNothing(c0: Controller, c: Controller, n: nat, sent: Bytes)
    requires Sending(c0, c, n, sent)
    ensures AllSettled(c) && Run(c, []) == (c, [])
  {
  }

  // ---------- reading ----------

  ghost predicate Receiving(c0: Controller, c: Controller, n: nat, q: nat)
  {
    AllSettled(c) && Alone(c0, c) && Received(c0.Selected(), c.Selected(), n, q)
  }

  // The bytes of the image from a place in the transfer on.
  function ImageBytes(d0: Drive, q: nat, n: nat): (bytes: Bytes)
    requires d0.disk.pos + q + n <= |d0.disk.image|
    ensures |bytes| == n
  {
    d0.disk.image[d0.disk.pos + q..d0.disk.pos + q + n]
  }

  lemma GetOneIs(c: Controller, mode: Mode)
    requires AllSettled(c)
    ensures Ok(c)
    ensures var (d, v) := DataIn(c.Selected(), if mode == Eight then 1 else 2);
            var (c', words) := Run(c, GetOne(mode));
            && c'.Selected() == d && Alone(c, c')
            && Taken(mode, words) == if mode == Eight then [v % 256] else [v % 256, v / 256]
  {
    hide DataIn, Settled;
    SettledOk(c);
    RunOne(c, Read8(DATA));
    RunOne(c, Read16(DATA));
    RunTwo(c, ReadLatched(DATA), ReadLatched(LATCH));
    TakenTwo(mode, DataIn(c.Selected(), 2).1);
  }

  lemma TakenTwo(mode: Mode, v: Word)
    ensures mode != Sixteen ==> Taken(mode, [v % 256, v / 256]) == [v % 256, v / 256]
    ensures Taken(mode, [v]) == if mode == Sixteen then [v % 256, v / 256] else [v % 256]
  {
    assert [v % 256, v / 256][1..] == [v / 256];
    assert [v][1..] == [];
    assert Taken(mode, [v / 256]) == if mode == Sixteen then [v / 256 % 256, v / 256 / 256] else [v / 256 % 256];
  }

  lemma ReceiveOne(c0: Controller, c: Controller, n: nat, q: nat, mode: Mode)
    requires Receiving(c0, c, n, q) && q < 512 * n && Matches(mode, c.Selected())
    ensures var d0 := c0.Selected();
            var (c', words) := Run(c, GetOne(mode));
            && Receiving(c0, c', n, q + Width(mode)) && Matches(mode, c'.Selected())
            && d0.disk.pos + q + Width(mode) <= |d0.disk.image|
            && Taken(mode, words) == ImageBytes(d0, q, Width(mode))
  {
    hide DataIn, AllSettled, Kept, Run, Taken, AllHealthy, Received, GetOne, Pair;
    RunKept(c, GetOne(mode));
    KeptSettled(c, Run(c, GetOne(mode)).0);
    GetOneIs(c, mode);
    var len := if mode == Eight then 1 else 2;
    NotAllRead(c0.Selected(), c.Selected(), n, q);
    OneIn(c0.Selected(), c.Selected(), n, q, len);
    PairBytes(ImageByte(c0.Selected(), q), if mode == Eight then 0 else ImageByte(c0.Selected(), q + 1));
    StillMatches(c0.Selected(), c.Selected(), n, q, len);
  }

  lemma NotAllRead(d0: Drive, d: Drive, n: nat, q: nat)
    requires Received(d0, d, n, q) && q < 512 * n
    ensures Reading(d0, d, n, q)
  {
  }

  lemma PairBytes(low: Byte, high: Byte)
    ensures Pair(low, high) % 256 == low && Pair(low, high) / 256 == high
  {
  }

  lemma StillMatches(d0: Drive, d: Drive, n: nat, q: nat, len: nat)
    requires Reading(d0, d, n, q)
    ensures Valid(d) && DataIn(d, len).0.eightbit == d.eightbit
  {
    hide AllHealthy, Pair;
    RefilledReads(d0, d, n, q);
  }

  lemma {:induction false} GetsReceive(c0: Controller, c: Controller, n: nat, q: nat, mode: Mode, more: nat)
    requires Receiving(c0, c, n, q) && q + more == 512 * n
    requires more % Width(mode) == 0 && Matches(mode, c.Selected())
    requires c0.Selected().disk.pos + 512 * n <= |c0.Selected().disk.image|
    ensures AllSettled(c)
    ensures var (c', words) := Run(c, Gets(mode, more));
            Receiving(c0, c', n, 512 * n) && Taken(mode, words) == ImageBytes(c0.Selected(), q, more)
    decreases more
  {
    hide Receiving, Run, GetOne, Matches, Taken, ImageBytes;
    ReceivingSettled(c0, c, n, q);
    if more == 0 {
      NothingTaken(mode);
    } else {
      var u := Width(mode);
      assert (more - u) % u == 0;
      ImageBytesJoin(c0.Selected(), q, u, more - u);
      RunAppend(c, GetOne(mode), Gets(mode, more - u));
      ReceiveOne(c0, c, n, q, mode);
      var (c1, words) := Run(c, GetOne(mode));
      GetsReceive(c0, c1, n, q + u, mode, more - u);
      TakenAppend(mode, words, Run(c1, Gets(mode, more - u)).1);
    }
  }

  lemma ReceivingSettled(c0: Controller, c: Controller, n: nat, q: nat)
    requires Receiving(c0, c, n, q)
    ensures AllSettled(c) && Run(c, []) == (c, [])
  {
  }

  lemma ImageBytesJoin(d0: Drive, q: nat, a: nat, b: nat)
    requires d0.disk.pos + q + a + b <= |d0.disk.image|
    ensures ImageBytes(d0, q, a) + ImageBytes(d0, q + a, b) == ImageBytes(d0, q, a + b)
  {
  }

  lemma NothingTaken(mode: Mode)
    ensures Taken(mode, []) == []
  {
  }

  // ---------- commands ----------

  // The address registers a driver loads; the top one also selects the drive.
  datatype Registers = Registers(low: Byte, mid: Byte, high: Byte, top: Byte)

  function DriveOf(a: Registers): (k: nat)
    ensures k < 2
  {
    a.top / 16 % 2
  }

  function Setup(a: Registers, n: nat, command: Byte): (accesses: seq<Access>)
  {
    [Write8(LBA_TOP, a.top), Write8(COUNT, n % 256), Write8(LBA_LOW, a.low), Write8(LBA_MID, a.mid),
     Write8(LBA_HIGH, a.high), Write8(COMMAND, command)]
  }

  // The drive with its registers loaded.
  function Loaded(d: Drive, a: Registers, n: nat): (d': Drive)
  {
    d.(task := d.task.(lba4 := TopBits(a.top), count := n % 256, lba1 := a.low, lba2 := a.mid, lba3 := a.high))
  }

  // The block the registers name on a drive.
  function Named(d: Drive, a: Registers): (block: Option<nat>)
  {
    Translate(Loaded(d, a, 0).task, d.geometry)
  }

  // Neither drive is held in reset.
  predicate Responsive(c: Controller)
  {
    AllSettled(c) && !SoftReset(c.drive0.task.devctrl)
  }

  predicate There(c: Controller, k: nat)
  {
    Responsive(c) && c.Of(k).present
  }

  // Only drive k has changed, and it is selected.
  ghost predicate Only(c: Controller, c': Controller, k: nat)
  {
    c'.selected == k && (if k == 0 then c'.drive1 == c.drive1 else c'.drive0 == c.drive0)
  }

  lemma SelectIs(c: Controller, top: Byte)
    requires Responsive(c)
    ensures var k, c' := top / 16 % 2, Run(c, [Write8(LBA_TOP, top)]).0;
            && Only(c, c', k) && Responsive(c')
            && c'.Of(k) == c.Of(k).(task := c.Of(k).task.(lba4 := TopBits(top)))
  {
    hide Kept, TopBits;
    RunOne(c, Write8(LBA_TOP, top));
    RunKept(c, [Write8(LBA_TOP, top)]);
    KeptSettled(c, Run(c, [Write8(LBA_TOP, top)]).0);
  }

  lemma LoadIs(c: Controller, r: Byte, v: Byte)
    requires There(c, c.selected) && c.selected < 2 && r in {COUNT, LBA_LOW, LBA_MID, LBA_HIGH}
    ensures var c' := Run(c, [Write8(r, v)]).0;
            && Only(c, c', c.selected) && There(c', c.selected)
            && c'.Selected() == WriteRegister(c.Selected(), r, v)
  {
    hide Kept;
    RunOne(c, Write8(r, v));
    RunKept(c, [Write8(r, v)]);
    KeptSettled(c, Run(c, [Write8(r, v)]).0);
  }

  lemma CommandIs(c: Controller, command: Byte)
    requires There(c, c.selected) && c.selected < 2 && command != EDD
    ensures var d := c.Selected();
            var c' := Run(c, [Write8(COMMAND, command)]).0;
            && Only(c, c', c.selected) && AllSettled(c')
            && c'.Selected() == Command(d.(task := d.task.(command := command)))
  {
    hide Kept, Command;
    RunOne(c, Write8(COMMAND, command));
    RunKept(c, [Write8(COMMAND, command)]);
    KeptSettled(c, Run(c, [Write8(COMMAND, command)]).0);
  }

  lemma SetupIs(c: Controller, a: Registers, n: nat, command: Byte)
    requires There(c, DriveOf(a)) && command != EDD
    ensures var k := DriveOf(a);
            var c' := Run(c, Setup(a, n, command)).0;
            var d := Loaded(c.Of(k), a, n);
            && AllSettled(c') && Only(c, c', k)
            && c'.Of(k) == Command(d.(task := d.task.(command := command)))
  {
    hide Responsive, Run, Command, TopBits, AllSettled;
    var k := DriveOf(a);
    var a0, a1, a2 := [Write8(LBA_TOP, a.top)], [Write8(COUNT, n % 256)], [Write8(LBA_LOW, a.low)];
    var a3, a4, a5 := [Write8(LBA_MID, a.mid)], [Write8(LBA_HIGH, a.high)], [Write8(COMMAND, command)];
    assert Setup(a, n, command) == a0 + (a1 + (a2 + (a3 + (a4 + a5))));
    ThereSettled(c, k);
    RunAppend(c, a0, a1 + (a2 + (a3 + (a4 + a5))));
    SelectIs(c, a.top);
    var c1 := Run(c, a0).0;
    RunAppend(c1, a1, a2 + (a3 + (a4 + a5)));
    LoadIs(c1, COUNT, n % 256);
    var c2 := Run(c1, a1).0;
    ThereSettled(c2, k);
    RunAppend(c2, a2, a3 + (a4 + a5));
    LoadIs(c2, LBA_LOW, a.low);
    var c3 := Run(c2, a2).0;
    ThereSettled(c3, k);
    RunAppend(c3, a3, a4 + a5);
    LoadIs(c3, LBA_MID, a.mid);
    var c4 := Run(c3, a3).0;
    ThereSettled(c4, k);
    RunAppend(c4, a4, a5);
    LoadIs(c4, LBA_HIGH, a.high);
    var c5 := Run(c4, a4).0;
    CommandIs(c5, command);
  }

  lemma ThereSettled(c: Controller, k: nat)
    requires There(c, k)
    ensures AllSettled(c) && Responsive(c)
  {
  }

  // ---------- whole transfers ----------

  // The drive answers, and neither it nor the host has anything to complain about.
  ghost predicate Working(c: Controller, k: nat)
  {
    There(c, k) && !c.Of(k).failed && AllHealthy(c.Of(k).disk)
  }

  lemma CountIs(n: nat)
    requires 1 <= n <= 256
    ensures SectorCount(n % 256) == n
  {
  }

  lemma NamedIs(d: Drive, a: Registers, n: nat, command: Byte)
    ensures var d1 := Loaded(d, a, n);
            Translate(Issued(d1.(task := d1.task.(command := command))).task, d.geometry) == Named(d, a)
  {
  }

  // A drive that has just started to take n sectors at a block.
  ghost predicate Started(d: Drive, r: Drive, block: nat)
  {
    && SameDrive(d, r) && !r.failed && r.eightbit == d.eightbit && AllHealthy(r.disk) && !r.task.status.err
    && r.disk.image == d.disk.image && r.disk.pos == 512 * block
  }

  lemma WriteStarts(d: Drive, a: Registers, n: nat, command: Byte, block: nat)
    requires Usable(d) && !d.failed && AllHealthy(d.disk) && IsWrite(command) && 1 <= n <= 256
    requires Named(d, a) == Some(block)
    ensures var d1 := Loaded(d, a, n);
            var r := Command(d1.(task := d1.task.(command := command)));
            Started(d, r, block) && Sent(r, r, n, [])
  {
    hide Translate, Corrected, TopBits, AllHealthy, SectorCount, Named;
    CountIs(n);
    NamedIs(d, a, n, command);
    var d1 := Loaded(d, a, n);
    var d2 := Issued(d1.(task := d1.task.(command := command)));
    CorrectedKeeps(d2.task, d2.geometry);
    var r := WriteSectors(d2);
    HealthyStays(d.disk, r.disk);
    assert r.buffer[..0] == [];
  }

  lemma ReadStarts(d: Drive, a: Registers, n: nat, command: Byte, block: nat)
    requires Usable(d) && !d.failed && AllHealthy(d.disk) && IsRead(command) && 1 <= n <= 256
    requires Named(d, a) == Some(block) && 512 * (block + n) <= |d.disk.image|
    ensures var d1 := Loaded(d, a, n);
            var r := Command(d1.(task := d1.task.(command := command)));
            Started(d, r, block) && Received(r, r, n, 0)
  {
    hide Translate, Corrected, TopBits, AllHealthy, SectorCount, Named;
    CountIs(n);
    NamedIs(d, a, n, command);
    var d1 := Loaded(d, a, n);
    var d2 := Issued(d1.(task := d1.task.(command := command)));
    CorrectedKeeps(d2.task, d2.geometry);
    HealthyStays(d.disk, ReadSectors(d2).disk);
  }

  // What a finished transfer leaves: a drive as it was found, but for the registers and the image.
  ghost predicate Finished(c: Controller, c': Controller, k: nat, image: Bytes)
  {
    && Only(c, c', k) && Working(c', k)
    && c'.Of(k).phase == IDLE && !c'.Of(k).task.status.err
    && c'.Of(k).geometry == c.Of(k).geometry && c'.Of(k).eightbit == c.Of(k).eightbit
    && c'.Of(k).disk.image == image
  }

  function WriteAccesses(a: Registers, n: nat, command: Byte, mode: Mode, data: Bytes): (accesses: seq<Access>)
    requires |data| == 512 * n
  {
    EvenBytes(mode, n);
    Setup(a, n, command) + Puts(mode, data)
  }

  function ReadAccesses(a: Registers, n: nat, command: Byte, mode: Mode): (accesses: seq<Access>)
  {
    EvenBytes(mode, n);
    Setup(a, n, command) + Gets(mode, 512 * n)
  }

  lemma EvenBytes(mode: Mode, n: nat)
    ensures 512 * n % Width(mode) == 0
  {
    assert 512 * n == 2 * (256 * n);
  }

  /** WRITE SECTORS puts the data on the image at the block named, and leaves nothing else
      changed: not the rest of the image, and not the other drive. */
  lemma WriteSectorsStore(c: Controller, a: Registers, n: nat, command: Byte, mode: Mode, data: Bytes, block: nat)
    requires Working(c, DriveOf(a)) && Matches(mode, c.Of(DriveOf(a)))
    requires IsWrite(command) && 1 <= n <= 256 && |data| == 512 * n
    requires Named(c.Of(DriveOf(a)), a) == Some(block)
    ensures var k := DriveOf(a);
            Finished(c, Run(c, WriteAccesses(a, n, command, mode, data)).0, k, WriteAt(c.Of(k).disk.image, 512 * block, data))
  {
    hide Setup, Puts, Run, Command, Named, AllHealthy, WriteAt, Settled;
    var k := DriveOf(a);
    EvenBytes(mode, n);
    ThereSettled(c, k);
    RunAppend(c, Setup(a, n, command), Puts(mode, data));
    SetupIs(c, a, n, command);
    SettledUsable(c.Of(k));
    WriteStarts(c.Of(k), a, n, command, block);
    var c1 := Run(c, Setup(a, n, command)).0;
    PutsSend(c1, c1, n, [], mode, data);
    var c2 := Run(c1, Puts(mode, data)).0;
    assert [] + data == data;
    SendingEnds(c1, c2, n, data);
  }

  lemma SendingEnds(c0: Controller, c: Controller, n: nat, data: Bytes)
    requires Sending(c0, c, n, data) && |data| == 512 * n
    ensures AllSettled(c) && Alone(c0, c) && Written(c0.Selected(), c.Selected(), data)
  {
  }

  lemma RunLength(c: Controller, accesses: seq<Access>)
    requires AllSettled(c)
    ensures |Run(c, accesses).1| == |accesses|
    decreases |accesses|
  {
    hide Do, AllSettled, Kept;
    if accesses != [] {
      SettledOk(c);
      DoKept(c, accesses[0]);
      KeptSettled(c, Do(c, accesses[0]).0);
      RunLength(Do(c, accesses[0]).0, accesses[1..]);
    }
  }

  // The bytes read, after what setting up has read, which is nothing.
  function Brought(mode: Mode, words: seq<Word>): (bytes: Bytes)
  {
    if |words| < 6 then [] else Taken(mode, words[6..])
  }

  /** READ SECTORS brings what is on the image at the block named, and changes none of it. */
  lemma ReadSectorsBring(c: Controller, a: Registers, n: nat, command: Byte, mode: Mode, block: nat)
    requires Working(c, DriveOf(a)) && Matches(mode, c.Of(DriveOf(a)))
    requires IsRead(command) && 1 <= n <= 256
    requires Named(c.Of(DriveOf(a)), a) == Some(block)
    requires 512 * (block + n) <= |c.Of(DriveOf(a)).disk.image|
    ensures var k := DriveOf(a);
            var (c', words) := Run(c, ReadAccesses(a, n, command, mode));
            && Finished(c, c', k, c.Of(k).disk.image)
            && Brought(mode, words) == c.Of(k).disk.image[512 * block..512 * (block + n)]
  {
    hide Setup, Gets, Run, Command, Named, AllHealthy, Settled, Taken;
    var k := DriveOf(a);
    EvenBytes(mode, n);
    ThereSettled(c, k);
    RunAppend(c, Setup(a, n, command), Gets(mode, 512 * n));
    SetupIs(c, a, n, command);
    SettledUsable(c.Of(k));
    ReadStarts(c.Of(k), a, n, command, block);
    var (c1, before) := Run(c, Setup(a, n, command));
    RunLength(c, Setup(a, n, command));
    SetupLength(a, n, command);
    GetsReceive(c1, c1, n, 0, mode, 512 * n);
    var (c2, words) := Run(c1, Gets(mode, 512 * n));
    assert (before + words)[6..] == words;
    ReceivingEnds(c1, c2, n);
  }

  lemma SetupLength(a: Registers, n: nat, command: Byte)
    ensures |Setup(a, n, command)| == 6
  {
  }

  lemma ReceivingEnds(c0: Controller, c: Controller, n: nat)
    requires Receiving(c0, c, n, 512 * n)
    ensures AllSettled(c) && Alone(c0, c) && AllRead(c0.Selected(), c.Selected())
  {
  }

  /** The round trip: what was written to a block is read back from it, byte for byte, whatever
      way either transfer names the block and whichever of the matching widths each uses. */
  lemma WriteThenRead(c: Controller, a: Registers, b: Registers, n: nat, write: Byte, read: Byte, out: Mode, back: Mode,
                      data: Bytes, block: nat)
    requires var k := DriveOf(a);
             && DriveOf(b) == k && Working(c, k) && Matches(out, c.Of(k)) && Matches(back, c.Of(k))
             && Named(c.Of(k), a) == Some(block) && Named(c.Of(k), b) == Some(block)
    requires IsWrite(write) && IsRead(read) && 1 <= n <= 256 && |data| == 512 * n
    ensures AllSettled(c)
    ensures var k := DriveOf(a);
            var c1 := Run(c, WriteAccesses(a, n, write, out, data)).0;
            && AllSettled(c1)
            && Brought(back, Run(c1, ReadAccesses(b, n, read, back)).1) == data
            && (forall i :: 0 <= i < |c.Of(k).disk.image| && !(512 * block <= i < 512 * (block + n)) ==>
                  i < |c1.Of(k).disk.image| && c1.Of(k).disk.image[i] == c.Of(k).disk.image[i])
  {
    hide Run, WriteAccesses, ReadAccesses, Named, AllHealthy, WriteAt, Settled, Brought;
    var k := DriveOf(a);
    WriteSectorsStore(c, a, n, write, out, data, block);
    var c1 := Run(c, WriteAccesses(a, n, write, out, data)).0;
    WriteAtReads(c.Of(k).disk.image, 512 * block, data);
    NamedAgain(c.Of(k), c1.Of(k), b);
    ReadSectorsBring(c1, b, n, read, back, block);
  }

  // A name depends on nothing but the registers loaded and the geometry.
  lemma NamedAgain(d: Drive, d': Drive, a: Registers)
    requires d.geometry == d'.geometry
    ensures Named(d, a) == Named(d', a)
  {
  }
}
