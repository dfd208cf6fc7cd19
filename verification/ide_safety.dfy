/**
  What holds of the PIO disk after every register access of every run.
 */
module IdeSafety {
  import opened Basics
  import opened Ide

  predicate Transferring(d: Drive)
  {
    d.phase == DATA_IN || d.phase == DATA_OUT
  }

  // What every command, and every access to the data, leaves of one drive.
  predicate Sound(d: Drive)
  {
    && Valid(d) && d.phase != CMD
    && (d.task.status.drq <==> Transferring(d))
    && (d.phase == DATA_OUT ==> d.disk.pos >= 1024)
  }

  /** Between accesses: the drive asks for data exactly while it transfers, is never left in the
      middle of a command, is busy only while it is held in reset, and a transfer under way has
      sectors left and a place in its buffer for the next access. */
  predicate Settled(d: Drive)
  {
    && Sound(d)
    && (d.task.status.bsy ==> d.present && SoftReset(d.task.devctrl) && d.phase == IDLE)
    && (!d.present ==> d.phase == IDLE)
  }

  predicate AllSettled(c: Controller)
  {
    Settled(c.drive0) && Settled(c.drive1) && c.drive0.task.devctrl == c.drive1.task.devctrl
  }

  lemma TheBounds(d: Drive)
    requires Settled(d)
    ensures d.task.status.drq <==> d.phase == DATA_IN || d.phase == DATA_OUT
    ensures d.phase != CMD
    ensures d.task.status.bsy ==> SoftReset(d.task.devctrl) && !d.task.status.drq
    ensures d.dptr <= 512 && (d.phase == DATA_OUT ==> d.dptr < 512)
    ensures Transferring(d) ==> d.length > 0 && (d.dptr % 2 == 0 || d.eightbit)
  {
  }

  // What no command changes.
  predicate SameDrive(d: Drive, d': Drive)
  {
    && d'.present == d.present && d'.geometry == d.geometry && d'.task.devctrl == d.task.devctrl
  }

  // Blocks 0 and 1 hold the drive's own description, and no address names them.
  lemma TranslatePastHeader(t: Taskfile, g: Geometry)
    ensures var b := Translate(t, g); b.Some? ==> b.value >= 2
  {
    if !Linear(t, g) {
      var cyl := t.lba3 * 0x100 + t.lba2;
      ProductNotNegative(cyl * g.heads + t.lba4 % 16, g.sectors);
      assert Corrected(t, g).lba1 >= 1;
    }
  }

  lemma ProductNotNegative(a: nat, b: nat)
    ensures a * b >= 0
  {
  }

  // What the end of a command leaves.
  predicate Ended(d: Drive, r: Drive)
  {
    Sound(r) && SameDrive(d, r) && !r.task.status.bsy && r.disk.image == d.disk.image
  }

  predicate Usable(d: Drive)
  {
    |d.buffer| == 512 && |d.geometry.identify| == 512 && d.dptr <= 512
  }

  lemma CompletedEnds(d: Drive, r: Drive)
    requires Usable(d) && SameDrive(d, r) && r.buffer == d.buffer && r.dptr == d.dptr && r.disk.image == d.disk.image
    ensures Ended(d, Completed(r)) && Ended(d, Ready(r))
  {
  }

  lemma CorrectedKeeps(t: Taskfile, g: Geometry)
    ensures Corrected(t, g).status == t.status && Corrected(t, g).devctrl == t.devctrl && Corrected(t, g).count == t.count
  {
  }

  lemma PositionedKeeps(d: Drive, ahead: nat)
    ensures var (r, ok) := Positioned(d, ahead);
            && SameDrive(d, r) && r.buffer == d.buffer && r.dptr == d.dptr && r.disk.image == d.disk.image
            && r.length == d.length && r.eightbit == d.eightbit && r.failed == d.failed
            && r.task.status.bsy == d.task.status.bsy
            && (ok ==> d.offset >= 0 && r.task == d.task && r.disk.pos == 512 * (d.offset + ahead))
  {
    hide WithIdnf;
  }

  lemma ReadCommandEnds(d: Drive)
    requires Usable(d)
    ensures Ended(d, ReadSectors(d))
  {
    hide Translate, Corrected, Completed, Positioned;
    CorrectedKeeps(d.task, d.geometry);
    CompletedEnds(d, d.(task := d.task.(status := d.task.status.(err := true), error := IDNF)));
    var d1 := Located(d).(length := SectorCount(d.task.count));
    var d2 := d1.(task := d1.task.(status := d1.task.status.(drq := true, dsc := true, drdy := true, bsy := false)));
    PositionedKeeps(d2, 0);
    CompletedEnds(d, Positioned(d2, 0).0);
  }

  lemma WriteCommandEnds(d: Drive)
    requires Usable(d)
    ensures Ended(d, WriteSectors(d))
  {
    hide Translate, Corrected, Completed, Positioned;
    TranslatePastHeader(d.task, d.geometry);
    CorrectedKeeps(d.task, d.geometry);
    CompletedEnds(d, d.(task := d.task.(status := d.task.status.(err := true), error := IDNF)));
    var d1 := Located(d).(length := SectorCount(d.task.count));
    var d2 := d1.(task := d1.task.(status := d1.task.status.(drq := true)));
    PositionedKeeps(d2, 0);
    CompletedEnds(d, Positioned(d2, 0).0);
  }

  lemma IdentifyEnds(d: Drive)
    requires Usable(d)
    ensures Ended(d, Identify(d))
  {
  }

  lemma InitParamsEnds(d: Drive)
    requires Usable(d)
    ensures Ended(d, InitParams(d))
  {
    hide Completed, WithAbrt, Ended;
    var t := d.task;
    CompletedEnds(d, d.(failed := true, task := t.(status := t.status.(err := true), error := WithAbrt(t.error))));
    CompletedEnds(d, d.(failed := false));
  }

  lemma SetFeaturesEnds(d: Drive)
    requires Usable(d)
    ensures Ended(d, SetFeatures(d)) && Ended(d, Completed(Aborted(d)))
  {
    hide Completed, WithAbrt, Ended;
    CompletedEnds(d, d);
    CompletedEnds(d, d.(eightbit := true));
    CompletedEnds(d, d.(eightbit := false));
    CompletedEnds(d, Aborted(d));
  }

  lemma VerifyCommandEnds(d: Drive)
    requires Usable(d)
    ensures Ended(d, VerifySectors(d))
  {
    hide Translate, Corrected, Completed, Ready, Positioned, Ended;
    CorrectedKeeps(d.task, d.geometry);
    CompletedEnds(d, d.(task := d.task.(status := d.task.status.(err := true), error := IDNF)));
    var d1 := Located(d).(length := SectorCount(d.task.count));
    PositionedKeeps(d1, d1.length - 1);
    CompletedEnds(d, SeekComplete(Positioned(d1, d1.length - 1).0));
  }

  lemma DriveFailedSame(d: Drive)
    ensures var r := DriveFailed(d); SameDrive(d, r) && r.buffer == d.buffer && r.dptr == d.dptr && r.disk == d.disk
  {
  }

  lemma RecalibrateEnds(d: Drive)
    requires Usable(d)
    ensures Ended(d, Recalibrate(d))
  {
    hide Translate, Corrected, Completed, DriveFailed, WithAbrt, Ended;
    DriveFailedSame(d);
    var d1 := if d.failed then DriveFailed(d) else d;
    CorrectedKeeps(d1.task, d1.geometry);
    var t := Corrected(d1.task, d1.geometry);
    var t1 := if Translate(d1.task, d1.geometry).None? then
                t.(status := t.status.(err := true, dsc := false), error := WithAbrt(t.error))
              else t;
    CompletedEnds(d, SeekComplete(d1.(task := t1)));
  }

  lemma SeekEnds(d: Drive)
    requires Usable(d)
    ensures Ended(d, Seek(d))
  {
    hide Translate, Corrected, Completed, DriveFailed, Positioned, Ended;
    DriveFailedSame(d);
    var d0 := if d.failed then DriveFailed(d) else d;
    CorrectedKeeps(d0.task, d0.geometry);
    var d1 := Located(d0);
    PositionedKeeps(d1, 0);
    CompletedEnds(d, SeekComplete(Positioned(d1, 0).0));
  }

  // Every command ends at once: idle, or in a transfer.
  lemma CommandEnds(d: Drive)
    requires Usable(d)
    ensures Ended(d, Command(d))
  {
    hide Identify, InitParams, SetFeatures, Completed, Aborted, ReadSectors, WriteSectors, VerifySectors, Recalibrate, Seek, Sound;
    var d1 := Issued(d);
    ReadCommandEnds(d1);
    WriteCommandEnds(d1);
    IdentifyEnds(d1);
    InitParamsEnds(d1);
    SetFeaturesEnds(d1);
    VerifyCommandEnds(d1);
    RecalibrateEnds(d1);
    SeekEnds(d1);
  }

  // ---------- data ----------

  // What an access to the data leaves: a drive as sound, and no busier.
  predicate Accessed(d: Drive, r: Drive)
  {
    && Sound(r) && SameDrive(d, r)
    && (r.task.status.bsy ==> d.task.status.bsy && r.phase == d.phase)
    && (d.phase == IDLE ==> r.phase == IDLE)
  }

  lemma SetErrorSound(d: Drive, r: Report)
    requires Usable(d)
    ensures Ended(d, SetError(d, r))
  {
  }

  // A sector that could not be filled leaves the image and the drive.
  lemma RefilledIs(d: Drive)
    requires Sound(d) && d.phase == DATA_IN
    ensures var (r, ok) := Refilled(d);
            && Usable(r) && SameDrive(d, r) && r.disk.image == d.disk.image
            && (ok ==> Sound(r) && r.phase == DATA_IN && r.dptr < 512 && r.task.status == d.task.status && r.eightbit == d.eightbit)
  {
  }

  lemma TakeSound(d: Drive, len: nat)
    requires Sound(d) && d.phase == DATA_IN && d.dptr < 512
    ensures var r := Take(d, len).0;
            Accessed(d, r) && r.disk == d.disk
  {
    hide Pair;
  }

  lemma DataInSound(d: Drive, len: nat)
    requires Sound(d)
    ensures var r := DataIn(d, len).0;
            Accessed(d, r) && r.disk.image == d.disk.image
  {
    hide Take, Refilled, SetError;
    if d.phase == DATA_IN {
      RefilledIs(d);
      ReadSectorKeeps(d);
      var (d1, ok) := Refilled(d);
      if ok {
        TakeSound(d1, len);
      } else {
        SetErrorSound(d1, ReportOf(Next(d.disk)));
      }
    }
  }

  // The image has not lost anything, and its first blocks are as they were.
  ghost predicate HeaderKept(before: Bytes, after: Bytes)
  {
    |before| <= |after| && forall i :: 0 <= i < 1024 && i < |before| ==> after[i] == before[i]
  }

  lemma WriteAtKeepsHeader(image: Bytes, pos: nat, data: Bytes)
    requires pos >= 1024
    ensures HeaderKept(image, WriteAt(image, pos, data))
  {
  }

  lemma StoreSound(d: Drive, v: Word)
    requires Sound(d) && d.phase == DATA_OUT
    ensures var r := Store(d, v);
            && Usable(r) && SameDrive(d, r) && r.disk == d.disk && r.phase == d.phase && r.length == d.length
            && (r.dptr < 512 ==> Accessed(d, r))
            && r.task.status == d.task.status
  {
  }

  lemma WriteSectorIs(d: Drive)
    requires Usable(d) && d.disk.pos >= 1024
    ensures var (r, ok) := WriteSector(d);
            && Usable(r) && SameDrive(d, r) && HeaderKept(d.disk.image, r.disk.image)
            && r.phase == d.phase && r.length == d.length
            && (ok ==> r.task == d.task && r.disk.pos >= 1024 && r.dptr == 0)
  {
    hide WriteAt, HeaderKept;
    var k := d.disk;
    var n := Moved(Next(k), 512);
    WriteAtKeepsHeader(k.image, k.pos, d.buffer[..if n.Some? then n.value else 0]);
  }

  lemma SectorOutSound(d: Drive)
    requires Usable(d) && d.dptr == 0 && d.phase == DATA_OUT && d.length > 0 && d.task.status.drq && d.disk.pos >= 1024
    ensures Accessed(d, SectorOut(d)) && SectorOut(d).disk == d.disk
  {
  }

  lemma FlushedSound(d: Drive)
    requires Usable(d) && d.phase == DATA_OUT && d.length > 0 && d.task.status.drq && d.disk.pos >= 1024
    ensures Accessed(d, Flushed(d)) && HeaderKept(d.disk.image, Flushed(d).disk.image)
  {
    hide WriteSector, SetError, SectorOut, HeaderKept;
    WriteSectorIs(d);
    var (d1, ok) := WriteSector(d);
    if ok {
      SectorOutSound(d1);
    } else {
      SetErrorSound(d1, ReportOf(Next(d.disk)));
    }
  }

  lemma HeaderSame(image: Bytes)
    ensures HeaderKept(image, image)
  {
  }

  lemma DataOutSound(d: Drive, v: Word)
    requires Sound(d)
    ensures var r := DataOut(d, v);
            Accessed(d, r) && HeaderKept(d.disk.image, r.disk.image)
  {
    hide Store, Flushed, HeaderKept;
    HeaderSame(d.disk.image);
    if d.phase == DATA_OUT {
      StoreSound(d, v);
      if Store(d, v).dptr == 512 {
        FlushedSound(Store(d, v));
      }
    }
  }

  // ---------- register accesses ----------

  datatype Access =
    | Read8(r: Byte) | Write8(r: Byte, v: Byte)
    | Read16(r: Byte) | Write16(r: Byte, w: Word)
    | ReadLatched(r: Byte) | WriteLatched(r: Byte, v: Byte)
    | ResetLine

  // One access, and the value read, if it reads one.
  function Do(c: Controller, a: Access): (x: (Controller, Word))
    requires Ok(c)
  {
    match a
    case Read8(r) => Ide.Read8(c, r)
    case Write8(r, v) => (Ide.Write8(c, r, v), 0)
    case Read16(r) => Ide.Read16(c, r)
    case Write16(r, w) => (Ide.Write16(c, r, w), 0)
    case ReadLatched(r) => Ide.ReadLatched(c, r)
    case WriteLatched(r, v) => (Ide.WriteLatched(c, r, v), 0)
    case ResetLine => (Reset(c), 0)
  }

  // A controller after an access: settled, and its images longer at most, with their headers.
  ghost predicate Kept(c: Controller, c': Controller)
  {
    && AllSettled(c')
    && HeaderKept(c.drive0.disk.image, c'.drive0.disk.image)
    && HeaderKept(c.drive1.disk.image, c'.drive1.disk.image)
  }

  lemma SelectedKept(c: Controller, r: Drive)
    requires AllSettled(c) && Settled(r) && SameDrive(c.Selected(), r)
    requires HeaderKept(c.Selected().disk.image, r.disk.image)
    ensures Kept(c, c.With(r))
  {
    hide Settled, HeaderKept;
    HeaderSame(c.drive0.disk.image);
    HeaderSame(c.drive1.disk.image);
  }

  lemma AccessedSettled(d: Drive, r: Drive)
    requires Settled(d) && Accessed(d, r)
    ensures Settled(r)
  {
    hide Sound;
  }

  lemma EndedSettled(d: Drive, r: Drive)
    requires d.present && Ended(d, r)
    ensures Settled(r) && HeaderKept(d.disk.image, r.disk.image)
  {
    hide Sound;
  }

  lemma ResetSettled(c: Controller)
    requires AllSettled(c)
    ensures Kept(c, Reset(c))
  {
  }

  lemma DriveResetSettled(d: Drive, v: Byte)
    requires Settled(d)
    ensures var r := DriveReset(d); r.task.devctrl == d.task.devctrl && r.disk == d.disk && Settled(r)
    ensures SoftReset(v) ==> var r := Busy(DriveReset(d)); r.disk == d.disk && Settled(r.(task := r.task.(devctrl := v)))
    ensures !SoftReset(v) ==> var r := Ready(d); r.disk == d.disk && Settled(r.(task := r.task.(devctrl := v)))
    ensures SoftReset(v) == SoftReset(d.task.devctrl) ==> Settled(d.(task := d.task.(devctrl := v)))
  {
  }

  lemma ControlKept(c: Controller, v: Byte)
    requires AllSettled(c)
    ensures Kept(c, DeviceControl(c, v))
  {
    hide SoftReset, Settled, HeaderKept, DriveReset, Busy, Ready;
    DriveResetSettled(c.drive0, v);
    DriveResetSettled(c.drive1, v);
    HeaderSame(c.drive0.disk.image);
    HeaderSame(c.drive1.disk.image);
  }

  lemma DiagnosedSettled(d: Drive)
    requires Settled(d)
    ensures Settled(Diagnosed(d)) && Diagnosed(d).disk == d.disk && SameDrive(d, Diagnosed(d))
    ensures d.present ==> Diagnosed(Issued(d)).disk == d.disk && Settled(Diagnosed(Issued(d))) && SameDrive(d, Diagnosed(Issued(d)))
  {
  }

  lemma IssueKept(c: Controller)
    requires AllSettled(c) && c.Selected().present
    ensures Kept(c, IssueCommand(c))
  {
    hide Command, Issued, Diagnosed, Settled, Ended, HeaderKept, SameDrive;
    var d := c.Selected();
    if d.task.command == EDD {
      hide IssueCommand;
      DiagnosticKept(c);
    } else {
      SettledUsable(d);
      CommandEnds(d);
      EndedSettled(d, Command(d));
      EndedSame(d, Command(d));
      SelectedKept(c, Command(d));
    }
  }

  lemma SettledUsable(d: Drive)
    requires Settled(d)
    ensures Usable(d) && Sound(d)
  {
  }

  lemma EndedSame(d: Drive, r: Drive)
    requires Ended(d, r)
    ensures SameDrive(d, r)
  {
  }

  lemma DiagnosticKept(c: Controller)
    requires AllSettled(c) && c.Selected().present && c.Selected().task.command == EDD
    ensures Kept(c, IssueCommand(c))
  {
    hide Issued, Diagnosed, Settled, HeaderKept;
    DiagnosedSettled(c.drive0);
    DiagnosedSettled(c.drive1);
    HeaderSame(c.drive0.disk.image);
    HeaderSame(c.drive1.disk.image);
  }

  lemma CommandKept(c: Controller, v: Byte)
    requires AllSettled(c) && c.Selected().present
    ensures Kept(c, IssueCommand(c.With(c.Selected().(task := c.Selected().task.(command := v)))))
  {
    hide IssueCommand, HeaderKept;
    var d := c.Selected();
    var r := d.(task := d.task.(command := v));
    HeaderSame(d.disk.image);
    SelectedKept(c, r);
    IssueKept(c.With(r));
  }

  lemma RegisterKept(c: Controller, r: Byte, v: Byte)
    requires AllSettled(c)
    ensures Kept(c, c.With(WriteRegister(c.Selected(), r, v)))
  {
    hide WriteRegister, HeaderKept, Settled;
    var d := c.Selected();
    HeaderSame(d.disk.image);
    RegisterSettled(d, r, v);
    SelectedKept(c, WriteRegister(d, r, v));
  }

  lemma RegisterSettled(d: Drive, r: Byte, v: Byte)
    requires Settled(d)
    ensures var d' := WriteRegister(d, r, v); Settled(d') && SameDrive(d, d') && d'.disk == d.disk
  {
    hide LbaBit, SoftReset;
  }

  lemma SelectKept(c: Controller, v: Byte)
    requires AllSettled(c)
    ensures Kept(c, SelectDrive(c, v))
  {
    hide HeaderKept, TopBits;
    var c1 := c.(selected := v / 16 % 2);
    var d := c1.Selected();
    HeaderSame(d.disk.image);
    SelectedKept(c1, d.(task := d.task.(lba4 := TopBits(v))));
  }

  lemma DataInKept(c: Controller, len: nat)
    requires AllSettled(c)
    ensures Kept(c, c.With(DataIn(c.Selected(), len).0))
  {
    hide DataIn, Settled, Accessed, HeaderKept;
    var d := c.Selected();
    SettledUsable(d);
    DataInSound(d, len);
    HeaderSame(d.disk.image);
    AccessedSettled(d, DataIn(d, len).0);
    AccessedSame(d, DataIn(d, len).0);
    SelectedKept(c, DataIn(d, len).0);
  }

  lemma AccessedSame(d: Drive, r: Drive)
    requires Accessed(d, r)
    ensures SameDrive(d, r)
  {
  }

  lemma DataOutKept(c: Controller, v: Word)
    requires AllSettled(c)
    ensures Kept(c, c.With(DataOut(c.Selected(), v)))
  {
    hide DataOut, Settled, Accessed, HeaderKept;
    var d := c.Selected();
    SettledUsable(d);
    DataOutSound(d, v);
    AccessedSettled(d, DataOut(d, v));
    AccessedSame(d, DataOut(d, v));
    SelectedKept(c, DataOut(d, v));
  }

  lemma SameKept(c: Controller)
    requires AllSettled(c)
    ensures Kept(c, c) && forall latch: Byte :: Kept(c, c.(latch := latch))
  {
    hide Settled;
  }

  lemma AcknowledgedKept(c: Controller)
    requires AllSettled(c)
    ensures Kept(c, c.With(c.Selected().(intrq := false)))
  {
    hide HeaderKept;
    HeaderSame(c.Selected().disk.image);
    SelectedKept(c, c.Selected().(intrq := false));
  }

  lemma Read8Kept(c: Controller, r: Byte)
    requires AllSettled(c)
    ensures Kept(c, Ide.Read8(c, r).0)
  {
    hide DataIn, Kept, Valid, Settled;
    SameKept(c);
    AcknowledgedKept(c);
    DataInKept(c, 1);
  }

  lemma Write8Kept(c: Controller, r: Byte, v: Byte)
    requires AllSettled(c)
    ensures Kept(c, Ide.Write8(c, r, v))
  {
    hide DataOut, Kept, Valid, Settled, SelectDrive, IssueCommand, DeviceControl, WriteRegister;
    SameKept(c);
    var d := c.Selected();
    if Refused(d, r) {
    } else if r == DATA {
      DataOutKept(c, v);
    } else if r == LBA_TOP {
      SelectKept(c, v);
    } else if r == COMMAND {
      CommandKept(c, v);
    } else if r == CONTROL {
      ControlKept(c, v);
    } else {
      RegisterKept(c, r, v);
    }
  }

  lemma Read16Kept(c: Controller, r: Byte)
    requires AllSettled(c)
    ensures Kept(c, Ide.Read16(c, r).0)
  {
    hide DataIn, Ide.Read8, Kept, Valid, Settled;
    DataInKept(c, 2);
    Read8Kept(c, r);
  }

  lemma Write16Kept(c: Controller, r: Byte, w: Word)
    requires AllSettled(c)
    ensures Kept(c, Ide.Write16(c, r, w))
  {
    hide DataOut, Ide.Write8, Kept, Valid, Settled;
    SameKept(c);
    DataOutKept(c, w);
    Write8Kept(c, r, w % 256);
  }

  lemma LatchKept(c: Controller, c': Controller, latch: Byte)
    requires Kept(c, c')
    ensures Kept(c, c'.(latch := latch))
  {
    hide Settled, HeaderKept;
  }

  lemma DoKept(c: Controller, a: Access)
    requires AllSettled(c)
    ensures Kept(c, Do(c, a).0)
  {
    hide Ide.Read8, Ide.Write8, Ide.Read16, Ide.Write16, Reset, Kept, Valid, Settled;
    match a
    case Read8(r) => Read8Kept(c, r);
    case Write8(r, v) => Write8Kept(c, r, v);
    case Read16(r) => Read16Kept(c, r);
    case Write16(r, w) => Write16Kept(c, r, w);
    case ReadLatched(r) =>
      SameKept(c);
      SettledOk(c);
      if r != LATCH {
        Read16Kept(c, r);
        var (c1, v) := Ide.Read16(c, r);
        LatchKept(c, c1, v / 256);
      }
    case WriteLatched(r, v) =>
      SameKept(c);
      Write16Kept(c, r, if r == DATA then Pair(v, c.latch) else v);
    case ResetLine => ResetSettled(c);
  }

  // ---------- runs ----------

  // A run of accesses, with what each of them read.
  function Run(c: Controller, accesses: seq<Access>): (x: (Controller, seq<Word>))
    requires AllSettled(c)
    decreases |accesses|
  {
    if accesses == [] then (c, [])
    else
      var (c1, v) := Do(c, accesses[0]);
      DoKept(c, accesses[0]);
      var (c2, vs) := Run(c1, accesses[1..]);
      (c2, [v] + vs)
  }

  // A controller as it comes from attaching drives to it.
  predicate Fresh(d: Drive)
  {
    && |d.buffer| == 512 && |d.geometry.identify| == 512 && d.dptr == 0 && d.phase == IDLE
    && d.task.status == Status(false, false, false, false, false) && d.task.devctrl == 0
  }

  lemma KeptTransitive(a: Controller, b: Controller, c: Controller)
    requires Kept(a, b) && Kept(b, c)
    ensures Kept(a, c)
  {
    hide AllSettled;
  }

  lemma {:induction false} RunKept(c: Controller, accesses: seq<Access>)
    requires AllSettled(c)
    ensures Kept(c, Run(c, accesses).0)
    decreases |accesses|
  {
    hide Do, Kept, Settled;
    if accesses == [] {
      SameKept(c);
    } else {
      SettledOk(c);
      var c1 := Do(c, accesses[0]).0;
      DoKept(c, accesses[0]);
      KeptSettled(c, c1);
      RunKept(c1, accesses[1..]);
      KeptTransitive(c, c1, Run(c1, accesses[1..]).0);
    }
  }

  lemma SettledOk(c: Controller)
    requires AllSettled(c)
    ensures Ok(c)
  {
  }

  lemma KeptSettled(c: Controller, c': Controller)
    requires Kept(c, c')
    ensures AllSettled(c')
  {
  }

  /** From attached drives, whatever registers are read and written, by whatever width, and
      whatever the host makes of the transfers: both drives are settled after every access, and
      the two blocks that describe a drive are never overwritten. */
  lemma EveryRunIsSettled(c: Controller, accesses: seq<Access>)
    requires Fresh(c.drive0) && Fresh(c.drive1)
    ensures AllSettled(c)
    ensures var c' := Run(c, accesses).0;
            && AllSettled(c')
            && HeaderKept(c.drive0.disk.image, c'.drive0.disk.image)
            && HeaderKept(c.drive1.disk.image, c'.drive1.disk.image)
  {
    hide Run;
    RunKept(c, accesses);
  }
}
