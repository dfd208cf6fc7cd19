/**
  The PIO disk as it runs: two drives and a controller updated in place, access by access.
  Every operation is tied to its value-level counterpart.
 */
module IdeDevice {
  import opened Basics
  import opened Ide

  class Unit {
    const geometry: Geometry
    const host: nat -> Host        // what the host does with the n-th sector moved
    const lseek: nat -> bool       // and whether the n-th change of position goes through
    const data: array<Byte>        // the sector buffer
    var present: bool
    var intrq: bool
    var failed: bool
    var eightbit: bool
    var task: Taskfile
    var dptr: nat
    var phase: Phase
    var offset: int
    var length: nat
    var image: Bytes               // the image file and the position in it
    var pos: nat
    var moves: nat
    var seeks: nat

    ghost predicate Valid()
      reads this
    {
      data.Length == 512 && |geometry.identify| == 512
    }

    ghost function View(): (d: Drive)
      reads this, data
    {
      Drive(present, intrq, failed, eightbit, geometry, task, data[..], dptr, phase, offset, length,
            Disk(image, pos, host, moves, lseek, seeks))
    }

    constructor (present: bool, geometry: Geometry, image: Bytes, host: nat -> Host, lseek: nat -> bool)
      requires |geometry.identify| == 512
      ensures Valid() && fresh(data)
      ensures View() == Drive(present, false, false, false, geometry,
                              Taskfile(0, 0, 0, 0, 0, 0, 0, 0, Status(false, false, false, false, false), 0, 0),
                              seq(512, _ => 0), 0, IDLE, 0, 0, Disk(image, 0, host, 0, lseek, 0))
    {
      this.geometry, this.host, this.lseek := geometry, host, lseek;
      data := new Byte[512](_ => 0);
      this.present, intrq, failed, eightbit := present, false, false, false;
      task := Taskfile(0, 0, 0, 0, 0, 0, 0, 0, Status(false, false, false, false, false), 0, 0);
      dptr, phase, offset, length := 0, IDLE, 0, 0;
      this.image, pos, moves, seeks := image, 0, 0, 0;
      new;
      assert data[..] == seq(512, _ => 0);
    }

    // The block the registers name, or -1; sector 0 is put right on the way.
    method XlateBlock() returns (block: int)
      modifies this`task
      ensures block == Offset(Translate(old(task), geometry))
      ensures task == Corrected(old(task), geometry)
    {
      if LbaBit(task.lba4) {
        if geometry.lba {
          return 2 + (task.lba4 % 16) * 0x1000000 + task.lba3 * 0x10000 + task.lba2 * 0x100 + task.lba1;
        }
      }
      if task.lba1 == 0 {
        task := task.(lba1 := 1);
      }
      var cyl := task.lba3 * 0x100 + task.lba2;
      if task.lba1 == 0 || task.lba1 > geometry.sectors || task.lba4 >= geometry.heads || cyl >= geometry.cylinders {
        return -1;
      }
      block := 1 + (cyl * geometry.heads + task.lba4 % 16) * geometry.sectors + task.lba1;
    }

    method Ready()
      modifies this`task, this`phase
      ensures View() == Ide.Ready(old(View()))
    {
      task := task.(status := task.status.(bsy := false, drq := false));
      task := task.(status := task.status.(drdy := true));
      phase := IDLE;
    }

    method Completed()
      modifies this`task, this`phase, this`intrq
      ensures View() == Ide.Completed(old(View()))
    {
      Ready();
      intrq := true;
    }

    method DriveFailed()
      modifies this`task, this`phase
      ensures View() == Ide.DriveFailed(old(View()))
    {
      task := task.(status := task.status.(err := true));
      task := task.(error := IDNF);
      Ready();
    }

    method DataInState()
      modifies this`task, this`phase, this`dptr, this`intrq
      ensures View() == Ide.DataInState(old(View()))
    {
      phase := DATA_IN;
      dptr := 512;
      task := task.(status := task.status.(bsy := false));
      task := task.(status := task.status.(drq := true, drdy := true));
      intrq := true;
    }

    method DataOutState()
      modifies this`task, this`phase, this`dptr, this`intrq
      ensures View() == Ide.DataOutState(old(View()))
    {
      phase := DATA_OUT;
      dptr := 0;
      task := task.(status := task.status.(bsy := false));
      task := task.(status := task.status.(drq := true, drdy := true));
      intrq := true;
    }

    method EddSetup()
      modifies this`task, this`phase
      ensures View() == Ide.EddSetup(old(View()))
    {
      task := task.(error := 1, lba1 := 1, lba2 := 0, lba3 := 0, lba4 := 0, count := 1);
      Ready();
    }

    method Identify()
      requires Valid()
      modifies this`task, this`phase, this`dptr, this`intrq, this`length, data
      ensures View() == Ide.Identify(old(View()))
    {
      forall i | 0 <= i < 512 {
        data[i] := geometry.identify[i];
      }
      assert data[..] == geometry.identify;
      DataInState();
      dptr := 0;
      length := 1;
    }

    method InitParams()
      modifies this`task, this`phase, this`intrq, this`failed
      ensures View() == Ide.InitParams(old(View()))
    {
      hide WithAbrt;
      if task.count != geometry.sectors || task.lba4 % 16 + 1 != geometry.heads {
        task := task.(status := task.status.(err := true));
        task := task.(error := WithAbrt(task.error));
        failed := true;
      } else if failed {
        failed := false;
      }
      Completed();
    }

    // Look the address up, and count the sectors.
    method LocateSectors()
      modifies this`task, this`length, this`offset
      ensures View() == Located(old(View())).(length := SectorCount(old(task).count))
    {
      hide Translate, Corrected;
      CorrectedCount(task, geometry);
      offset := XlateBlock();
      length := if task.count != 0 then task.count else 256;
    }

    method NotFound()
      modifies this`task
      ensures View() == Ide.NotFound(old(View()))
    {
      hide WithIdnf;
      task := task.(status := task.status.(err := true));
      task := task.(error := WithIdnf(task.error));
      task := task.(status := task.status.(dsc := false));
    }

    // Position the image file, if there is a block to go to and the host goes there.
    method Position(ahead: nat) returns (ok: bool)
      requires offset >= -1
      modifies this`task, this`pos, this`seeks
      ensures (View(), ok) == Positioned(old(View()), ahead)
    {
      hide Ide.NotFound;
      if offset == -1 {
        NotFound();
        return false;
      }
      SeekNow(View().disk, lseek(seeks));
      seeks := seeks + 1;
      if !lseek(seeks - 1) {
        NotFound();
        return false;
      }
      pos := 512 * (offset + ahead);
      ok := true;
    }

    // A transfer is about to be asked for.
    method RaiseRequest()
      modifies this`task
      ensures View() == var d := old(View());
                        d.(task := d.task.(status := d.task.status.(drq := true, dsc := true, drdy := true, bsy := false)))
    {
      task := task.(status := task.status.(drq := true, dsc := true, drdy := true));
      task := task.(status := task.status.(bsy := false));
    }

    method ReadSectors()
      modifies this`task, this`phase, this`dptr, this`intrq, this`length, this`offset, this`pos, this`seeks
      ensures View() == Ide.ReadSectors(old(View()))
    {
      hide Located, SectorCount, Positioned, Ide.Completed, Ide.DataInState, Ide.DriveFailed;
      if failed {
        DriveFailed();
        return;
      }
      LocatedIs(View());
      LocateSectors();
      RaiseRequest();
      var ok := Position(0);
      if !ok {
        Completed();
        return;
      }
      DataInState();
    }

    method VerifySectors()
      modifies this`task, this`phase, this`intrq, this`length, this`offset, this`pos, this`seeks
      ensures View() == Ide.VerifySectors(old(View()))
    {
      hide Located, SectorCount, Positioned, Ide.Completed, Ide.DriveFailed;
      if failed {
        DriveFailed();
        return;
      }
      LocatedIs(View());
      LocateSectors();
      var _ := Position(length - 1);
      task := task.(status := task.status.(dsc := true));
      Completed();
    }

    method Recalibrate()
      modifies this`task, this`phase, this`intrq
      ensures View() == Ide.Recalibrate(old(View()))
    {
      hide Translate, Corrected, WithAbrt, Ide.Completed, Ide.DriveFailed;
      if failed {
        DriveFailed();
      }
      ghost var d1 := View();
      assert d1.geometry == geometry;
      var block := XlateBlock();
      if block < 0 {
        task := task.(status := task.status.(dsc := false));
        task := task.(status := task.status.(err := true));
        task := task.(error := WithAbrt(task.error));
      }
      task := task.(status := task.status.(dsc := true));
      Completed();
    }

    method Seek()
      modifies this`task, this`phase, this`intrq, this`offset, this`pos, this`seeks
      ensures View() == Ide.Seek(old(View()))
    {
      hide Translate, Corrected, Positioned, Ide.Completed, Ide.DriveFailed;
      if failed {
        DriveFailed();
      }
      offset := XlateBlock();
      var _ := Position(0);
      task := task.(status := task.status.(dsc := true));
      Completed();
    }

    method SetFeatures()
      modifies this`task, this`phase, this`intrq, this`eightbit
      ensures View() == Ide.SetFeatures(old(View()))
    {
      hide WithAbrt, Ide.Completed;
      if task.feature == 0x01 {
        eightbit := true;
      } else if task.feature == 0x03 {
        if task.count >= 0x20 {
          task := task.(status := task.status.(err := true));
          task := task.(error := WithAbrt(task.error));
        }
      } else if task.feature == 0x81 {
        eightbit := false;
      } else {
        task := task.(status := task.status.(err := true));
        task := task.(error := WithAbrt(task.error));
      }
      Completed();
    }

    method WriteSectors()
      modifies this`task, this`phase, this`dptr, this`intrq, this`length, this`offset, this`pos, this`seeks
      ensures View() == Ide.WriteSectors(old(View()))
    {
      hide Located, SectorCount, Positioned, Ide.Completed, Ide.DataOutState, Ide.DriveFailed;
      if failed {
        DriveFailed();
        return;
      }
      LocatedIs(View());
      LocateSectors();
      task := task.(status := task.status.(drq := true));
      var ok := Position(0);
      if !ok {
        Completed();
        return;
      }
      DataOutState();
    }

    method Unknown()
      modifies this`task, this`phase, this`intrq
      ensures View() == Ide.Completed(Aborted(old(View())))
    {
      hide WithAbrt, Ide.Completed;
      task := task.(status := task.status.(err := true));
      task := task.(error := WithAbrt(task.error));
      Completed();
    }

    method Issued()
      modifies this`task, this`phase
      ensures View() == Ide.Issued(old(View()))
    {
      task := task.(status := task.status.(err := false, drdy := false));
      task := task.(status := task.status.(bsy := true));
      task := task.(error := 0);
      phase := CMD;
    }

    // Every command but the diagnostic.
    method Command()
      requires Valid()
      modifies this`task, this`phase, this`dptr, this`intrq, this`length, this`offset, this`pos, this`seeks
      modifies this`failed, this`eightbit, data
      ensures View() == Ide.Command(old(View()))
    {
      hide Ide.Identify, Ide.InitParams, Ide.ReadSectors, Ide.SetFeatures, Ide.VerifySectors, Ide.WriteSectors;
      hide Ide.Recalibrate, Ide.Seek, Ide.Completed, Aborted;
      Issued();
      var c := task.command;
      if c == 0xEC {
        Identify();
      } else if c == 0x91 {
        InitParams();
      } else if c == 0x20 || c == 0x21 {
        ReadSectors();
      } else if c == 0xEF {
        SetFeatures();
      } else if c == 0x40 || c == 0x41 {
        VerifySectors();
      } else if c == 0x30 || c == 0x31 {
        WriteSectors();
      } else if c / 16 == 1 {
        Recalibrate();
      } else if c / 16 == 7 {
        Seek();
      } else {
        Unknown();
      }
    }

    method SetError(r: Report)
      modifies this`task, this`phase, this`intrq
      ensures View() == Ide.SetError(old(View()), r)
    {
      task := task.(lba1 := r.lba1, lba2 := r.lba2, lba3 := r.lba3, lba4 := r.lba4);
      task := task.(count := length % 256);
      task := task.(status := task.status.(err := true));
      phase := IDLE;
      Completed();
    }

    method Fault(error: Byte)
      modifies this`task
      ensures View() == Ide.Fault(old(View()), error)
    {
      task := task.(status := task.status.(err := true));
      task := task.(status := task.status.(dsc := false));
      task := task.(error := error);
    }

    method FillBuffer(moved: nat)
      requires Valid() && moved <= 512 && (moved > 0 ==> pos + moved <= |image|)
      modifies data
      ensures data[..] == if moved == 0 then old(data[..]) else image[pos..pos + moved] + old(data[..])[moved..]
    {
      forall i | 0 <= i < moved {
        data[i] := image[pos + i];
      }
    }

    // What the host brings of the image lands at the start of the buffer.
    method ReadBuffer(h: Host) returns (moved: nat)
      requires Valid()
      modifies this`pos, this`moves, data
      ensures moved == (var len := Moved(h, Available(image, old(pos))); if len.Some? then len.value else 0)
      ensures Valid() && moved <= 512
      ensures moved > 0 ==> old(pos) + moved <= |image|
      ensures View() == var d := old(View()); var k := d.disk;
                        d.(buffer := if moved == 0 then d.buffer else k.image[k.pos..k.pos + moved] + d.buffer[moved..],
                           disk := k.(pos := k.pos + moved, moves := k.moves + 1))
    {
      moves := moves + 1;
      var len := Moved(h, Available(image, pos));
      moved := if len.Some? then len.value else 0;
      FillBuffer(moved);
      pos := pos + moved;
    }

    method ReadSector() returns (ok: bool)
      requires Valid()
      modifies this`task, this`dptr, this`offset, this`pos, this`moves, data
      ensures Valid()
      ensures (View(), ok) == Ide.ReadSector(old(View()))
    {
      hide Ide.Fault, ErrorOf;
      dptr := 0;
      var h := host(moves);
      HostNow(View().disk, h);
      var moved := ReadBuffer(h);
      if moved != 512 {
        Fault(ErrorOf(h));
        return false;
      }
      offset := offset + 512;
      ok := true;
    }

    // What the host takes of the buffer lands in the image, and the position moves on with it.
    method WriteBuffer(h: Host) returns (moved: nat)
      requires Valid()
      modifies this`pos, this`image, this`moves
      ensures moved <= 512 && moved == (var len := Moved(h, 512); if len.Some? then len.value else 0)
      ensures Valid()
      ensures View() == var d := old(View()); var k := d.disk;
                        d.(disk := k.(image := WriteAt(k.image, k.pos, d.buffer[..moved]), pos := k.pos + moved,
                                      moves := k.moves + 1))
    {
      hide WriteAt;
      moves := moves + 1;
      var len := Moved(h, 512);
      moved := if len.Some? then len.value else 0;
      image := WriteAt(image, pos, data[..moved]);
      assert data[..][..moved] == data[..moved];
      pos := pos + moved;
    }

    method WriteSector() returns (ok: bool)
      requires Valid()
      modifies this`task, this`dptr, this`offset, this`pos, this`image, this`moves
      ensures Valid()
      ensures (View(), ok) == Ide.WriteSector(old(View()))
    {
      hide Ide.Fault, ErrorOf, WriteAt;
      dptr := 0;
      var h := host(moves);
      HostNow(View().disk, h);
      var moved := WriteBuffer(h);
      if moved != 512 {
        Fault(ErrorOf(h));
        return false;
      }
      offset := offset + 512;
      ok := true;
    }

    method DataIn(len: nat) returns (v: Word)
      requires Valid() && Ide.Valid(View())
      modifies this`task, this`dptr, this`offset, this`pos, this`moves, this`length, this`intrq, this`phase, data
      ensures Valid()
      ensures (View(), v) == Ide.DataIn(old(View()), len)
    {
      hide Ide.ReadSector, Ide.SetError, Ide.Completed, Pair, Next, ReportOf;
      if phase != DATA_IN {
        return if len == 1 then task.data % 256 else task.data;
      }
      if dptr == 512 {
        HostNow(View().disk, host(moves));
        var h := host(moves);
        var ok := ReadSector();
        if !ok {
          SetError(ReportOf(h));
          return 0xFFFF;
        }
      }
      ReadSectorKeeps(old(View()));
      v := TakeAccess(len);
      v := if len == 1 then v % 256 else v;
    }

    method SectorIn()
      requires length > 0
      modifies this`task, this`length, this`intrq, this`phase
      ensures View() == Ide.SectorIn(old(View()))
    {
      length := length - 1;
      intrq := true;
      if length == 0 {
        phase := IDLE;
        Completed();
      }
    }

    method TakeAccess(len: nat) returns (v: Word)
      requires Valid() && dptr < 512 && length > 0 && (eightbit || dptr % 2 == 0)
      modifies this`task, this`dptr, this`length, this`intrq, this`phase
      ensures Valid()
      ensures (View(), v) == Take(old(View()), len)
    {
      hide Pair, Ide.SectorIn;
      v := data[dptr];
      if !eightbit {
        if len == 2 {
          v := Pair(data[dptr], data[dptr + 1]);
        }
        dptr := dptr + 2;
      } else {
        dptr := dptr + 1;
      }
      task := task.(data := v);
      if dptr == 512 {
        SectorIn();
      }
    }

    method DataOut(v: Word)
      requires Valid() && Ide.Valid(View())
      modifies this`task, this`dptr, this`offset, this`pos, this`image, this`moves, this`length, this`intrq, this`phase, data
      ensures Valid()
      ensures View() == Ide.DataOut(old(View()), v)
    {
      hide Store, Ide.Flushed;
      if phase != DATA_OUT {
        task := task.(data := v);
      } else {
        StoreAccess(v);
        if dptr == 512 {
          Flush();
        }
      }
    }

    method StoreAccess(v: Word)
      requires Valid() && dptr < 512 && (eightbit || dptr % 2 == 0)
      modifies this`task, this`dptr, data
      ensures Valid()
      ensures View() == Store(old(View()), v)
    {
      var w: Word := if eightbit then v % 256 else v;
      data[dptr] := w % 256;
      dptr := dptr + 1;
      task := task.(data := w % 256);
      if !eightbit {
        data[dptr] := w / 256;
        dptr := dptr + 1;
        task := task.(data := w / 256);
      }
    }

    method SectorOut()
      requires length > 0
      modifies this`task, this`length, this`intrq, this`phase
      ensures View() == Ide.SectorOut(old(View()))
    {
      length := length - 1;
      intrq := true;
      if length == 0 {
        phase := IDLE;
        task := task.(status := task.status.(dsc := true));
        Completed();
      }
    }

    method Flush()
      requires Valid() && length > 0
      modifies this`task, this`dptr, this`offset, this`pos, this`image, this`moves, this`length, this`intrq, this`phase
      ensures Valid()
      ensures View() == Flushed(old(View()))
    {
      hide Ide.WriteSector, Ide.SectorOut, Ide.SetError, Next, ReportOf;
      HostNow(View().disk, host(moves));
      var h := host(moves);
      var ok := WriteSector();
      if !ok {
        SetError(ReportOf(h));
        return;
      }
      SectorOut();
    }
  }

  class Controller {
    const drive0: Unit
    const drive1: Unit
    var selected: nat
    var latch: Byte

    ghost predicate Valid()
      reads this, drive0, drive1
    {
      drive0.Valid() && drive1.Valid() && drive0 != drive1 && drive0.data != drive1.data && selected < 2
    }

    ghost function View(): (c: Ide.Controller)
      reads this, drive0, drive1, drive0.data, drive1.data
    {
      Ide.Controller(drive0.View(), drive1.View(), selected, latch)
    }

    constructor (drive0: Unit, drive1: Unit)
      requires drive0.Valid() && drive1.Valid() && drive0 != drive1 && drive0.data != drive1.data
      ensures Valid() && this.drive0 == drive0 && this.drive1 == drive1
      ensures View() == Ide.Controller(drive0.View(), drive1.View(), 0, 0)
    {
      this.drive0, this.drive1 := drive0, drive1;
      selected, latch := 0, 0;
    }

    method Selected() returns (d: Unit)
      requires Valid()
      ensures d == if selected == 0 then drive0 else drive1
    {
      d := if selected == 0 then drive0 else drive1;
    }

    method ResetDrive(d: Unit)
      requires Valid() && (d == drive0 || d == drive1)
      modifies d`task, d`phase, d`eightbit
      ensures Valid()
      ensures d.View() == DriveReset(old(d.View()))
    {
      if d.present {
        d.EddSetup();
        d.task := d.task.(status := Status(false, false, true, true, false));
        d.eightbit := false;
      }
    }

    method Reset()
      requires Valid()
      modifies this`selected, drive0`task, drive0`phase, drive0`eightbit, drive1`task, drive1`phase, drive1`eightbit
      ensures Valid()
      ensures View() == Ide.Reset(old(View()))
    {
      hide DriveReset;
      ResetDrive(drive0);
      ResetDrive(drive1);
      selected := 0;
    }

    // The reset line: busy is raised, and dropped by the reset itself.
    method ResetBegin()
      requires Valid()
      modifies this`selected, drive0`task, drive0`phase, drive0`eightbit, drive1`task, drive1`phase, drive1`eightbit
      ensures Valid()
      ensures View() == Ide.Reset(old(View()))
    {
      hide Ide.Reset;
      ghost var c := View();
      BusyThenReset(c);
      RaiseBusy(drive0);
      RaiseBusy(drive1);
      Reset();
    }

    method RaiseBusy(d: Unit)
      requires Valid() && (d == drive0 || d == drive1)
      modifies d`task
      ensures Valid()
      ensures d.View() == Busy(old(d.View()))
    {
      if d.present {
        d.task := d.task.(status := d.task.status.(bsy := true));
      }
    }

    method SoftResetBegin()
      requires Valid()
      modifies this`selected, drive0`task, drive0`phase, drive0`eightbit, drive1`task, drive1`phase, drive1`eightbit
      ensures Valid()
      ensures View() == Ide.SoftResetBegin(old(View()))
    {
      hide Ide.Reset, Busy;
      Reset();
      RaiseBusy(drive0);
      RaiseBusy(drive1);
    }

    method SoftResetEnd()
      requires Valid()
      modifies drive0`task, drive0`phase, drive1`task, drive1`phase
      ensures Valid()
      ensures View() == Ide.SoftResetEnd(old(View()))
    {
      hide Ide.Ready;
      drive0.Ready();
      drive1.Ready();
    }

    method DiagnoseDrive(d: Unit)
      requires Valid() && (d == drive0 || d == drive1)
      modifies d`task, d`phase
      ensures Valid()
      ensures d.View() == Diagnosed(old(d.View()))
    {
      if d.present {
        d.EddSetup();
      }
    }

    method Diagnose()
      requires Valid()
      modifies this`selected, drive0`task, drive0`phase, drive1`task, drive1`phase
      ensures Valid()
      ensures View() == old(View()).(drive0 := Diagnosed(old(View()).drive0), drive1 := Diagnosed(old(View()).drive1), selected := 0)
    {
      hide Diagnosed;
      DiagnoseDrive(drive0);
      DiagnoseDrive(drive1);
      selected := 0;
    }

    method IssueCommand()
      requires Valid()
      modifies this`selected, drive0, drive0.data, drive1, drive1.data
      ensures Valid()
      ensures View() == Ide.IssueCommand(old(View()))
    {
      hide Command, Issued, Diagnosed;
      var d := Selected();
      if d.task.command == EDD {
        d.Issued();
        Diagnose();
      } else {
        d.Command();
      }
    }

    method DeviceControl(v: Byte)
      requires Valid()
      modifies this`selected, drive0, drive1
      ensures Valid()
      ensures View() == Ide.DeviceControl(old(View()), v)
    {
      hide Ide.SoftResetBegin, Ide.SoftResetEnd, SoftReset;
      var d := Selected();
      if SoftReset(v) != SoftReset(d.task.devctrl) {
        if SoftReset(v) {
          SoftResetBegin();
        } else {
          SoftResetEnd();
        }
      }
      drive0.task := drive0.task.(devctrl := v);
      drive1.task := drive1.task.(devctrl := v);
    }

    method Read8(r: Byte) returns (v: Word)
      requires Valid() && Ok(View())
      modifies drive0, drive0.data, drive1, drive1.data
      ensures Valid()
      ensures (View(), v) == Ide.Read8(old(View()), r)
    {
      hide DataIn, StatusByte, Ide.Valid;
      var d := Selected();
      var t := d.task;
      if r == DATA {
        v := d.DataIn(1);
        v := v % 256;
      } else if r == FEATURE {
        v := t.error;
      } else if r == COUNT {
        v := t.count;
      } else if r == LBA_LOW {
        v := t.lba1;
      } else if r == LBA_MID {
        v := t.lba2;
      } else if r == LBA_HIGH {
        v := t.lba3;
      } else if r == LBA_TOP {
        v := t.lba4;
      } else if r == COMMAND {
        d.intrq := false;
        v := StatusByte(t.status);
      } else if r == CONTROL {
        v := StatusByte(t.status);
      } else {
        v := 0xFF;
      }
    }

    method SelectDrive(v: Byte)
      requires Valid()
      modifies this`selected, drive0`task, drive1`task
      ensures Valid()
      ensures View() == Ide.SelectDrive(old(View()), v)
    {
      hide TopBits;
      selected := v / 16 % 2;
      var d := Selected();
      d.task := d.task.(lba4 := TopBits(v));
    }

    method WriteRegister(d: Unit, r: Byte, v: Byte)
      requires Valid() && (d == drive0 || d == drive1)
      modifies d`task
      ensures Valid()
      ensures d.View() == Ide.WriteRegister(old(d.View()), r, v)
    {
      if r == FEATURE {
        d.task := d.task.(feature := v);
      } else if r == COUNT {
        d.task := d.task.(count := v);
      } else if r == LBA_LOW {
        d.task := d.task.(lba1 := v);
      } else if r == LBA_MID {
        d.task := d.task.(lba2 := v);
      } else if r == LBA_HIGH {
        d.task := d.task.(lba3 := v);
      }
    }

    method Write8(r: Byte, v: Byte)
      requires Valid() && Ok(View())
      modifies this`selected, drive0, drive0.data, drive1, drive1.data
      ensures Valid()
      ensures View() == Ide.Write8(old(View()), r, v)
    {
      hide DataOut, Ide.Valid, Ide.SelectDrive, Ide.IssueCommand, Ide.DeviceControl, Ide.WriteRegister;
      var d := Selected();
      if r != CONTROL {
        if d.task.status.bsy {
          return;
        }
        if !d.present && r != LBA_TOP {
          return;
        }
      }
      if r == DATA {
        d.DataOut(v);
      } else if r == LBA_TOP {
        SelectDrive(v);
      } else if r == COMMAND {
        d.task := d.task.(command := v);
        IssueCommand();
      } else if r == CONTROL {
        DeviceControl(v);
      } else {
        WriteRegister(d, r, v);
      }
    }

    method Read16(r: Byte) returns (v: Word)
      requires Valid() && Ok(View())
      modifies drive0, drive0.data, drive1, drive1.data
      ensures Valid()
      ensures (View(), v) == Ide.Read16(old(View()), r)
    {
      hide DataIn, Ide.Read8, Ide.Valid;
      var d := Selected();
      if r == DATA {
        v := d.DataIn(2);
      } else {
        v := Read8(r);
      }
    }

    method Write16(r: Byte, v: Word)
      requires Valid() && Ok(View())
      modifies this`selected, drive0, drive0.data, drive1, drive1.data
      ensures Valid()
      ensures View() == Ide.Write16(old(View()), r, v)
    {
      hide DataOut, Ide.Write8, Ide.Valid;
      var d := Selected();
      if r != CONTROL && d.task.status.bsy {
        return;
      }
      if r == DATA {
        d.DataOut(v);
      } else {
        Write8(r, v % 256);
      }
    }

    method ReadLatched(r: Byte) returns (v: Word)
      requires Valid() && Ok(View())
      modifies this`latch, drive0, drive0.data, drive1, drive1.data
      ensures Valid()
      ensures (View(), v) == Ide.ReadLatched(old(View()), r)
    {
      hide Ide.Read16, Ide.Valid;
      if r == LATCH {
        return latch;
      }
      v := Read16(r);
      if r == DATA {
        latch := v / 256;
      }
      v := v % 256;
    }

    method WriteLatched(r: Byte, v: Byte)
      requires Valid() && Ok(View())
      modifies this, drive0, drive0.data, drive1, drive1.data
      ensures Valid()
      ensures View() == Ide.WriteLatched(old(View()), r, v)
    {
      hide Ide.Write16, Ide.Valid;
      if r == LATCH {
        latch := v;
        return;
      }
      Write16(r, if r == DATA then Pair(v, latch) else v);
    }
  }

  lemma BusyThenReset(c: Ide.Controller)
    ensures Ide.Reset(c.(drive0 := Busy(c.drive0), drive1 := Busy(c.drive1))) == Ide.Reset(c)
  {
  }

  lemma CorrectedCount(t: Taskfile, g: Geometry)
    ensures Corrected(t, g).count == t.count && Corrected(t, g).error == t.error && Corrected(t, g).status == t.status
  {
  }

  lemma LocatedIs(d: Drive)
    ensures Located(d).offset >= -1
  {
    hide Translate, Corrected;
  }

  lemma SeekNow(k: Disk, goes: bool)
    requires k.lseek(k.seeks) == goes
    ensures Seeks(k) == goes
  {
  }

  lemma HostNow(k: Disk, h: Host)
    requires k.host(k.moves) == h
    ensures Next(k) == h
  {
  }
}
