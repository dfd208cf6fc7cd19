/**
  The offset into the sector buffer outside 8-bit mode.  It is even during every transfer; but
  8-bit mode can be left, by command or by a reset, after an odd number of bytes, and then an
  odd offset stays behind.  Exactly these accesses do that.
 */
module IdeOffset {
  import opened Basics
  import opened Ide
  import opened IdeSafety

  predicate Odd(d: Drive)
  {
    d.dptr % 2 == 1
  }

  // The offset is even, unless in 8-bit mode.
  predicate Even(d: Drive)
  {
    !Odd(d) || d.eightbit
  }

  predicate BothEven(c: Controller)
  {
    Even(c.drive0) && Even(c.drive1)
  }

  // ---------- one drive ----------

  // SET FEATURES, leave 8-bit mode, in the middle of a word.
  predicate Leaves(d: Drive, command: Byte)
  {
    command == 0xEF && d.task.feature == 0x81 && Odd(d)
  }

  lemma SectorCommandsEven(d: Drive)
    requires Even(d)
    ensures Even(ReadSectors(d)) && Even(WriteSectors(d)) && Even(Identify(d))
  {
    hide Translate, Corrected, WithIdnf, SectorCount;
  }

  lemma OtherCommandsEven(d: Drive)
    requires Even(d)
    ensures Even(VerifySectors(d)) && Even(Recalibrate(d)) && Even(Seek(d))
    ensures Even(InitParams(d)) && Even(Completed(Aborted(d)))
  {
    hide Translate, Corrected, Positioned, WithAbrt, SectorCount;
    var found := Located(d).(length := SectorCount(d.task.count));
    PositionedKeeps(found, found.length - 1);
    PositionedKeeps(Located(if d.failed then DriveFailed(d) else d), 0);
  }

  lemma SetFeaturesEven(d: Drive)
    requires Even(d)
    ensures Even(SetFeatures(d)) <==> !(d.task.feature == 0x81 && Odd(d))
  {
    hide WithAbrt;
  }

  lemma CommandEven(d: Drive)
    requires Even(d)
    ensures Even(Command(d)) <==> !Leaves(d, d.task.command)
  {
    hide Identify, InitParams, SetFeatures, Completed, Aborted, ReadSectors, WriteSectors, VerifySectors, Recalibrate, Seek;
    var d1 := Issued(d);
    SectorCommandsEven(d1);
    OtherCommandsEven(d1);
    SetFeaturesEven(d1);
  }

  lemma DataEven(d: Drive, len: nat, v: Word)
    requires Sound(d) && Even(d)
    ensures Even(DataIn(d, len).0) && Even(DataOut(d, v))
  {
    DataInEven(d, len);
    DataOutEven(d, v);
  }

  lemma RefilledEven(d: Drive)
    requires Valid(d) && Even(d)
    ensures var r := Refilled(d).0; Even(r) && r.eightbit == d.eightbit
  {
    hide Moved, Available, Next, ErrorOf;
  }

  lemma TakeEven(d: Drive, len: nat)
    requires |d.buffer| == 512 && d.dptr < 512 && d.length > 0 && Even(d)
    ensures Even(Take(d, len).0)
  {
    hide Pair;
  }

  lemma DataInEven(d: Drive, len: nat)
    requires Sound(d) && Even(d)
    ensures Even(DataIn(d, len).0)
  {
    hide Refilled, Take, Odd;
    if d.phase == DATA_IN {
      RefilledIs(d);
      RefilledEven(d);
      var (d1, ok) := Refilled(d);
      SetErrorEven(d1, ReportOf(Next(d.disk)));
      if ok {
        ReadSectorKeeps(d);
        TakeEven(d1, len);
      }
    }
  }

  lemma SetErrorEven(d: Drive, r: Report)
    requires Even(d)
    ensures Even(SetError(d, r))
  {
  }

  lemma StoreEven(d: Drive, v: Word)
    requires Sound(d) && d.phase == DATA_OUT && Even(d)
    ensures Even(Store(d, v))
  {
  }

  lemma FlushedEven(d: Drive)
    requires |d.buffer| == 512 && d.length > 0
    ensures Even(Flushed(d))
  {
    hide Moved, WriteAt, Next, ErrorOf;
  }

  lemma DataOutEven(d: Drive, v: Word)
    requires Sound(d) && Even(d)
    ensures Even(DataOut(d, v))
  {
    hide Store, Flushed;
    if d.phase == DATA_OUT {
      StoreSound(d, v);
      StoreEven(d, v);
      if Store(d, v).dptr == 512 {
        FlushedEven(Store(d, v));
      }
    }
  }

  // A reset leaves 8-bit mode and the offset as it is.
  lemma ResetEven(d: Drive)
    requires Even(d)
    ensures Even(DriveReset(d)) <==> !(d.present && Odd(d))
    ensures Even(Busy(DriveReset(d))) <==> !(d.present && Odd(d))
    ensures Even(Ready(d)) && Even(Diagnosed(d)) && Even(Diagnosed(Issued(d)))
  {
  }

  // ---------- one access ----------

  predicate ResetBreaks(c: Controller)
  {
    (c.drive0.present && Odd(c.drive0)) || (c.drive1.present && Odd(c.drive1))
  }

  // What writing a register other than the data does to it.
  predicate WriteBreaks(c: Controller, r: Byte, v: Byte)
  {
    var d := c.Selected();
    || (r == COMMAND && !Refused(d, r) && Leaves(d, v))
    || (r == CONTROL && SoftReset(v) && !SoftReset(d.task.devctrl) && ResetBreaks(c))
  }

  /** The accesses that leave an odd offset behind: leaving 8-bit mode by command, or by either
      reset, while the offset is odd. */
  predicate Breaks(c: Controller, a: Access)
  {
    match a
    case Write8(r, v) => WriteBreaks(c, r, v)
    case Write16(r, w) => WriteBreaks(c, r, w % 256)
    case WriteLatched(r, v) => WriteBreaks(c, r, v)
    case ResetLine => ResetBreaks(c)
    case _ => false
  }

  lemma ControlEven(c: Controller, v: Byte)
    requires BothEven(c)
    ensures BothEven(DeviceControl(c, v)) <==>
              !(SoftReset(v) && !SoftReset(c.Selected().task.devctrl) && ResetBreaks(c))
  {
    hide SoftReset, DriveReset, Busy, Ready;
    ResetEven(c.drive0);
    ResetEven(c.drive1);
  }

  lemma IssueEven(c: Controller, v: Byte)
    requires BothEven(c)
    ensures var d := c.Selected();
            BothEven(IssueCommand(c.With(d.(task := d.task.(command := v))))) <==> !Leaves(d, v)
  {
    hide Command, Diagnosed, Issued;
    var d := c.Selected();
    var d1 := d.(task := d.task.(command := v));
    CommandEven(d1);
    ResetEven(c.drive0);
    ResetEven(c.drive1);
    ResetEven(d1);
  }

  lemma Write8Even(c: Controller, r: Byte, v: Byte)
    requires AllSettled(c) && BothEven(c)
    ensures BothEven(Ide.Write8(c, r, v)) <==> !WriteBreaks(c, r, v)
  {
    hide DataOut, IssueCommand, DeviceControl, SoftReset, ResetBreaks, Leaves, Valid, TopBits;
    SettledOk(c);
    DataEven(c.Selected(), 1, v);
    IssueEven(c, v);
    ControlEven(c, v);
  }

  lemma Write16Even(c: Controller, r: Byte, w: Word)
    requires AllSettled(c) && BothEven(c)
    ensures BothEven(Ide.Write16(c, r, w)) <==> !WriteBreaks(c, r, w % 256)
  {
    hide DataOut, Ide.Write8, SoftReset, ResetBreaks, Leaves, Valid;
    SettledOk(c);
    DataEven(c.Selected(), 1, w);
    Write8Even(c, r, w % 256);
  }

  lemma ReadsEven(c: Controller, r: Byte)
    requires AllSettled(c) && BothEven(c)
    ensures BothEven(Ide.Read8(c, r).0) && BothEven(Ide.Read16(c, r).0)
  {
    hide DataIn, Valid, StatusByte;
    SettledOk(c);
    DataEven(c.Selected(), 1, 0);
    DataEven(c.Selected(), 2, 0);
  }

  /** The offset stays even outside 8-bit mode through an access, of either drive and of any
      width, exactly when it is none of those. */
  lemma EvenUnlessBroken(c: Controller, a: Access)
    requires AllSettled(c) && BothEven(c)
    ensures BothEven(Do(c, a).0) <==> !Breaks(c, a)
  {
    hide Ide.Read8, Ide.Read16, Ide.Write8, Ide.Write16, WriteBreaks, DriveReset, Valid, Settled;
    SettledOk(c);
    match a
    case Read8(r) => ReadsEven(c, r);
    case Read16(r) => ReadsEven(c, r);
    case ReadLatched(r) => ReadsEven(c, r);
    case Write8(r, v) => Write8Even(c, r, v);
    case Write16(r, w) => Write16Even(c, r, w);
    case WriteLatched(r, v) => LatchedEven(c, r, v);
    case ResetLine =>
      ResetEven(c.drive0);
      ResetEven(c.drive1);
  }

  lemma LatchedEven(c: Controller, r: Byte, v: Byte)
    requires AllSettled(c) && BothEven(c)
    ensures BothEven(Ide.WriteLatched(c, r, v)) <==> !WriteBreaks(c, r, v)
  {
    hide Ide.Write16, Valid, Settled;
    SettledOk(c);
    Write16Even(c, r, if r == DATA then Pair(v, c.latch) else v);
  }

  // ---------- runs ----------

  ghost predicate NeverBreaks(c: Controller, accesses: seq<Access>)
    requires AllSettled(c)
    decreases |accesses|
  {
    accesses == [] ||
    (!Breaks(c, accesses[0]) && (DoKept(c, accesses[0]); NeverBreaks(Do(c, accesses[0]).0, accesses[1..])))
  }

  /** A run without such an access ends with the offset of both drives even, or in 8-bit mode. */
  lemma {:induction false} RunEven(c: Controller, accesses: seq<Access>)
    requires AllSettled(c) && BothEven(c) && NeverBreaks(c, accesses)
    ensures BothEven(Run(c, accesses).0)
    decreases |accesses|
  {
    hide Do, Breaks, Settled, BothEven;
    if accesses != [] {
      SettledOk(c);
      DoKept(c, accesses[0]);
      EvenUnlessBroken(c, accesses[0]);
      RunEven(Do(c, accesses[0]).0, accesses[1..]);
    }
  }

  // ---------- where it fails ----------

  // The drive before: idle, and ready to take a command.
  predicate Idle(d: Drive)
  {
    d.present && d.phase == IDLE && !d.task.status.bsy
  }

  lemma FeatureIs(c: Controller, v: Byte)
    requires AllSettled(c) && c.selected == 0 && c.drive0.present && !c.drive0.task.status.bsy
    ensures var c' := Do(c, Access.Write8(FEATURE, v)).0;
            c' == c.(drive0 := c.drive0.(task := c.drive0.task.(feature := v)))
  {
    hide Settled, Valid;
    SettledOk(c);
  }

  lemma SetFeatureIs(c: Controller)
    requires AllSettled(c) && c.selected == 0 && c.drive0.present && !c.drive0.task.status.bsy
    requires c.drive0.task.feature == 0x01 || c.drive0.task.feature == 0x81
    ensures var c' := Do(c, Access.Write8(COMMAND, 0xEF)).0;
            && c'.selected == 0 && c'.drive0.dptr == c.drive0.dptr && Idle(c'.drive0)
            && c'.drive0.eightbit == (c.drive0.task.feature == 0x01)
  {
    hide Settled, Valid;
    SettledOk(c);
  }

  lemma OneByteIs(c: Controller)
    requires AllSettled(c) && c.selected == 0 && Idle(c.drive0) && c.drive0.eightbit
    ensures var c1 := Do(c, Access.Write8(COMMAND, 0xEC)).0;
            AllSettled(c1) && c1.selected == 0 && c1.drive0.present && c1.drive0.eightbit && c1.drive0.phase == DATA_IN
            && c1.drive0.dptr == 0 && !c1.drive0.task.status.bsy
  {
    hide Settled, Valid;
    SettledOk(c);
    DoKept(c, Access.Write8(COMMAND, 0xEC));
  }

  lemma ByteTaken(c: Controller)
    requires AllSettled(c) && c.selected == 0 && c.drive0.present && c.drive0.eightbit && c.drive0.phase == DATA_IN
    requires c.drive0.dptr == 0 && !c.drive0.task.status.bsy
    ensures var c1 := Do(c, Access.Read8(DATA)).0;
            && AllSettled(c1) && c1.selected == 0 && c1.drive0.present && c1.drive0.dptr == 1
            && !c1.drive0.task.status.bsy
  {
    hide Settled;
    SettledOk(c);
    DoKept(c, Access.Read8(DATA));
  }

  // One byte of the identity block in 8-bit mode, and then out of it.
  const INTO_ODD: seq<Access> := [
    Access.Write8(FEATURE, 0x01), Access.Write8(COMMAND, 0xEF), Access.Write8(COMMAND, 0xEC), Access.Read8(DATA),
    Access.Write8(FEATURE, 0x81), Access.Write8(COMMAND, 0xEF)]

  /** An odd offset outside 8-bit mode, on any drive just attached. */
  lemma OddOffsetStays(c: Controller)
    requires Fresh(c.drive0) && Fresh(c.drive1) && c.drive0.present && c.selected == 0
    ensures AllSettled(c)
    ensures var d := Run(c, INTO_ODD).0.drive0; d.phase == IDLE && !d.eightbit && d.dptr == 1
  {
    assert AllSettled(c);
    hide Do, Settled, Valid, Kept;
    var c1, c2 := After(c, INTO_ODD[0]), After(After(c, INTO_ODD[0]), INTO_ODD[1]);
    FeatureIs(c, 0x01);
    SetFeatureIs(c1);
    OneByteIs(c2);
    var c3 := After(c2, INTO_ODD[2]);
    ByteTaken(c3);
    var c4 := After(c3, INTO_ODD[3]);
    var c5 := After(c4, INTO_ODD[4]);
    FeatureIs(c4, 0x81);
    SetFeatureIs(c5);
    RunSix(c, INTO_ODD);
  }

  function After(c: Controller, a: Access): (c': Controller)
    requires AllSettled(c)
    ensures AllSettled(c')
  {
    SettledOk(c);
    DoKept(c, a);
    KeptSettled(c, Do(c, a).0);
    Do(c, a).0
  }

  lemma RunSix(c: Controller, a: seq<Access>)
    requires AllSettled(c) && |a| == 6
    ensures Run(c, a).0 == After(After(After(After(After(After(c, a[0]), a[1]), a[2]), a[3]), a[4]), a[5])
  {
    hide Do, Settled, Valid, Kept;
    RunNext(c, a);
    RunNext(After(c, a[0]), a[1..]);
    RunNext(After(After(c, a[0]), a[1]), a[1..][1..]);
    var b := a[1..][1..][1..];
    assert b == a[3..];
    var c3 := After(After(After(c, a[0]), a[1]), a[2]);
    RunNext(c3, b);
    RunNext(After(c3, b[0]), b[1..]);
    RunNext(After(After(c3, b[0]), b[1]), b[1..][1..]);
  }

  lemma RunNext(c: Controller, a: seq<Access>)
    requires AllSettled(c) && a != []
    ensures Run(c, a).0 == Run(After(c, a[0]), a[1..]).0
  {
    hide Do, Settled;
  }
}
