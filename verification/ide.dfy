/**
  The PIO disk (ide.c) as a value: two drives behind one set of registers, their sector
  buffers, and the images they keep on the host.  ATA/ATAPI-6, sections 9.5 and 9.6.
 */
module Ide {
  import opened Basics
  import opened Positional

  type Word = x: int | 0 <= x < 65536

  // ---------- the image on the host ----------

  // The address registers after a failed transfer are whatever the drive reports.
  datatype Report = Report(lba1: Byte, lba2: Byte, lba3: Byte, lba4: Byte)

  // What the host does with one sector: moves it, moves only part of it, or fails.
  datatype Host = Healthy | Short(limit: nat, report: Report) | Fails(eio: bool, report: Report)

  /** The image file, its position, what the host does with the n-th sector moved, and whether
      the n-th change of position goes through. */
  datatype Disk = Disk(image: Bytes, pos: nat, host: nat -> Host, moves: nat, lseek: nat -> bool, seeks: nat)

  function Zeros(n: nat): (z: Bytes)
    ensures |z| == n
  {
    seq(n, _ => 0)
  }

  // Writing at a position, which may be past the end.
  function WriteAt(image: Bytes, pos: nat, data: Bytes): (image': Bytes)
    ensures data != [] ==> |image'| == if |image| >= pos + |data| then |image| else pos + |data|
  {
    if data == [] then image
    else
      var padded := if |image| < pos then image + Zeros(pos - |image|) else image;
      padded[..pos] + data + if pos + |data| <= |padded| then padded[pos + |data|..] else []
  }

  // How many of 512 bytes are there to be read.
  function Available(image: Bytes, pos: nat): (n: nat)
    ensures n <= 512 && (n > 0 ==> pos + n <= |image|)
  {
    if |image| <= pos then 0 else if |image| - pos < 512 then |image| - pos else 512
  }

  function Min(a: nat, b: nat): (m: nat)
  {
    if a < b then a else b
  }

  // ---------- the drive ----------

  const ABRT: Byte := 4
  const IDNF: Byte := 16
  const UNC: Byte := 64
  const AMNF: Byte := 1

  datatype Phase = IDLE | CMD | DATA_IN | DATA_OUT

  datatype Status = Status(err: bool, drq: bool, dsc: bool, drdy: bool, bsy: bool)

  function StatusByte(s: Status): (v: Byte)
  {
    Bit(s.err) + 8 * Bit(s.drq) + 16 * Bit(s.dsc) + 64 * Bit(s.drdy) + 128 * Bit(s.bsy)
  }

  datatype Taskfile = Taskfile(
    data: Word, error: Byte, feature: Byte, count: Byte, lba1: Byte, lba2: Byte, lba3: Byte, lba4: Byte,
    status: Status, command: Byte, devctrl: Byte)

  datatype Geometry = Geometry(lba: bool, cylinders: nat, heads: nat, sectors: nat, identify: Bytes)

  datatype Drive = Drive(
    present: bool, intrq: bool, failed: bool, eightbit: bool, geometry: Geometry, task: Taskfile,
    buffer: Bytes, dptr: nat, phase: Phase, offset: int, length: nat, disk: Disk)

  // The buffers are there, and a transfer under way has room for its next access.
  predicate Valid(d: Drive)
  {
    && |d.buffer| == 512 && |d.geometry.identify| == 512 && d.dptr <= 512
    && (d.phase == DATA_OUT ==> d.dptr < 512)
    && (d.phase == DATA_IN || d.phase == DATA_OUT ==> d.length > 0 && (d.eightbit || d.dptr % 2 == 0))
  }

  predicate LbaBit(lba4: Byte)
  {
    lba4 / 64 % 2 == 1
  }

  predicate SoftReset(devctrl: Byte)
  {
    devctrl / 4 % 2 == 1
  }

  function WithAbrt(error: Byte): (e: Byte)
  {
    if error / 4 % 2 == 1 then error else error + ABRT
  }

  function WithIdnf(error: Byte): (e: Byte)
  {
    if error / 16 % 2 == 1 then error else error + IDNF
  }

  // ---------- addresses ----------

  predicate Linear(t: Taskfile, g: Geometry)
  {
    LbaBit(t.lba4) && g.lba
  }

  // Sector 0 is taken for sector 1.
  function Corrected(t: Taskfile, g: Geometry): (t': Taskfile)
  {
    if !Linear(t, g) && t.lba1 == 0 then t.(lba1 := 1) else t
  }

  // The block of the image the address registers name.
  function Translate(t: Taskfile, g: Geometry): (block: Option<nat>)
  {
    if Linear(t, g) then Some(2 + (t.lba4 % 16) * 0x1000000 + t.lba3 * 0x10000 + t.lba2 * 0x100 + t.lba1)
    else
      var sector := Corrected(t, g).lba1;
      var cyl := t.lba3 * 0x100 + t.lba2;
      if sector > g.sectors || t.lba4 >= g.heads || cyl >= g.cylinders then None
      else Some(1 + (cyl * g.heads + t.lba4 % 16) * g.sectors + sector)
  }

  function Offset(block: Option<nat>): (offset: int)
  {
    if block.Some? then block.value else -1
  }

  // ---------- the ends of commands ----------

  function Ready(d: Drive): (d': Drive)
  {
    d.(phase := IDLE, task := d.task.(status := d.task.status.(bsy := false, drq := false, drdy := true)))
  }

  function Completed(d: Drive): (d': Drive)
  {
    Ready(d).(intrq := true)
  }

  function DriveFailed(d: Drive): (d': Drive)
  {
    Ready(d.(task := d.task.(status := d.task.status.(err := true), error := IDNF)))
  }

  function DataInState(d: Drive): (d': Drive)
  {
    d.(phase := DATA_IN, dptr := 512, intrq := true,
       task := d.task.(status := d.task.status.(bsy := false, drq := true, drdy := true)))
  }

  function DataOutState(d: Drive): (d': Drive)
  {
    d.(phase := DATA_OUT, dptr := 0, intrq := true,
       task := d.task.(status := d.task.status.(bsy := false, drq := true, drdy := true)))
  }

  function EddSetup(d: Drive): (d': Drive)
  {
    Ready(d.(task := d.task.(error := 1, lba1 := 1, lba2 := 0, lba3 := 0, lba4 := 0, count := 1)))
  }

  function SectorCount(count: Byte): (n: nat)
    ensures 1 <= n <= 256
  {
    if count == 0 then 256 else count
  }

  function Identify(d: Drive): (d': Drive)
  {
    DataInState(d.(buffer := d.geometry.identify)).(dptr := 0, length := 1)
  }

  function InitParams(d: Drive): (d': Drive)
  {
    var t := d.task;
    if t.count != d.geometry.sectors || t.lba4 % 16 + 1 != d.geometry.heads then
      Completed(d.(failed := true, task := t.(status := t.status.(err := true), error := WithAbrt(t.error))))
    else
      Completed(d.(failed := false))
  }

  // The address is looked up, and may be corrected on the way.
  function Located(d: Drive): (d': Drive)
  {
    d.(offset := Offset(Translate(d.task, d.geometry)), task := Corrected(d.task, d.geometry))
  }

  // No such address.
  function NotFound(d: Drive): (d': Drive)
  {
    d.(task := d.task.(status := d.task.status.(err := true, dsc := false), error := WithIdnf(d.task.error)))
  }

  // Whether the host takes the next change of position.
  predicate Seeks(k: Disk)
  {
    k.lseek(k.seeks)
  }

  // The file is positioned at the block found, or so far ahead of it, if there is one.
  function Positioned(d: Drive, ahead: nat): (r: (Drive, bool))
  {
    if d.offset < 0 then (NotFound(d), false)
    else
      var d1 := d.(disk := d.disk.(seeks := d.disk.seeks + 1));
      if Seeks(d.disk) then (d1.(disk := d1.disk.(pos := 512 * (d.offset + ahead))), true)
      else (NotFound(d1), false)
  }

  function ReadSectors(d: Drive): (d': Drive)
  {
    if d.failed then DriveFailed(d)
    else
      var d1 := Located(d).(length := SectorCount(d.task.count));
      var d2 := d1.(task := d1.task.(status := d1.task.status.(drq := true, dsc := true, drdy := true, bsy := false)));
      var (d3, ok) := Positioned(d2, 0);
      if ok then DataInState(d3) else Completed(d3)
  }

  function WriteSectors(d: Drive): (d': Drive)
  {
    if d.failed then DriveFailed(d)
    else
      var d1 := Located(d).(length := SectorCount(d.task.count));
      var d2 := d1.(task := d1.task.(status := d1.task.status.(drq := true)));
      var (d3, ok) := Positioned(d2, 0);
      if ok then DataOutState(d3) else Completed(d3)
  }

  function SeekComplete(d: Drive): (d': Drive)
  {
    d.(task := d.task.(status := d.task.status.(dsc := true)))
  }

  function VerifySectors(d: Drive): (d': Drive)
  {
    if d.failed then DriveFailed(d)
    else
      var d1 := Located(d).(length := SectorCount(d.task.count));
      Completed(SeekComplete(Positioned(d1, d1.length - 1).0))
  }

  // A failed drive goes on all the same.
  function Recalibrate(d: Drive): (d': Drive)
  {
    var d1 := if d.failed then DriveFailed(d) else d;
    var t := Corrected(d1.task, d1.geometry);
    var t1 := if Translate(d1.task, d1.geometry).None? then
                t.(status := t.status.(err := true, dsc := false), error := WithAbrt(t.error))
              else t;
    Completed(SeekComplete(d1.(task := t1)))
  }

  function Seek(d: Drive): (d': Drive)
  {
    var d1 := Located(if d.failed then DriveFailed(d) else d);
    Completed(SeekComplete(Positioned(d1, 0).0))
  }

  function Aborted(d: Drive): (d': Drive)
  {
    d.(task := d.task.(status := d.task.status.(err := true), error := WithAbrt(d.task.error)))
  }

  function SetFeatures(d: Drive): (d': Drive)
  {
    Completed(
      if d.task.feature == 0x01 then d.(eightbit := true)
      else if d.task.feature == 0x03 then (if d.task.count >= 0x20 then Aborted(d) else d)
      else if d.task.feature == 0x81 then d.(eightbit := false)
      else Aborted(d))
  }

  const EDD: Byte := 0x90

  predicate IsRead(command: Byte)
  {
    command == 0x20 || command == 0x21
  }

  predicate IsWrite(command: Byte)
  {
    command == 0x30 || command == 0x31
  }

  function Issued(d: Drive): (d': Drive)
  {
    d.(phase := CMD, task := d.task.(status := d.task.status.(err := false, drdy := false, bsy := true), error := 0))
  }

  // Every command but the diagnostic, which is for both drives.
  function Command(d: Drive): (d': Drive)
  {
    var c := d.task.command;
    var d1 := Issued(d);
    if c == 0xEC then Identify(d1)
    else if c == 0x91 then InitParams(d1)
    else if IsRead(c) then ReadSectors(d1)
    else if c == 0xEF then SetFeatures(d1)
    else if c == 0x40 || c == 0x41 then VerifySectors(d1)
    else if IsWrite(c) then WriteSectors(d1)
    else if c / 16 == 1 then Recalibrate(d1)
    else if c / 16 == 7 then Seek(d1)
    else Completed(Aborted(d1))
  }

  // ---------- data ----------

  // A transfer cut short: the drive says where, and stops.
  function SetError(d: Drive, r: Report): (d': Drive)
  {
    Completed(d.(task := d.task.(lba1 := r.lba1, lba2 := r.lba2, lba3 := r.lba3, lba4 := r.lba4,
                                 count := d.length % 256, status := d.task.status.(err := true))))
  }

  function Fault(d: Drive, error: Byte): (d': Drive)
  {
    d.(task := d.task.(status := d.task.status.(err := true, dsc := false), error := error))
  }

  // What the host does with the next sector; it is taken through a name of its own.
  function Next(k: Disk): (h: Host)
  {
    k.host(k.moves)
  }

  // How many bytes of a sector the host moves, out of those there are.
  function Moved(h: Host, available: nat): (n: Option<nat>)
    requires available <= 512
    ensures n.Some? ==> n.value <= available
  {
    match h
    case Healthy => Some(available)
    case Short(limit, _) => Some(Min(limit, available))
    case Fails(_, _) => None
  }

  function ReportOf(h: Host): (r: Report)
  {
    if h.Healthy? then Report(0, 0, 0, 0) else h.report
  }

  function ErrorOf(h: Host): (e: Byte)
  {
    if h.Fails? && h.eio then UNC else AMNF
  }

  // The next sector of the image into the buffer; what could be read is there even if not all could.
  function ReadSector(d: Drive): (r: (Drive, bool))
    requires |d.buffer| == 512
    ensures |r.0.buffer| == 512
  {
    var h := Next(d.disk);
    var k := d.disk;
    var n := Moved(h, Available(k.image, k.pos));
    var moved := if n.Some? then n.value else 0;
    var d1 := d.(dptr := 0,
                 buffer := if moved == 0 then d.buffer else k.image[k.pos..k.pos + moved] + d.buffer[moved..],
                 disk := k.(pos := k.pos + moved, moves := k.moves + 1));
    if moved == 512 then (d1.(offset := d1.offset + 512), true)
    else (Fault(d1, ErrorOf(h)), false)
  }

  function WriteSector(d: Drive): (r: (Drive, bool))
    requires |d.buffer| == 512
    ensures |r.0.buffer| == 512
  {
    var h := Next(d.disk);
    var k := d.disk;
    var n := Moved(h, 512);
    var moved := if n.Some? then n.value else 0;
    var d1 := d.(dptr := 0, disk := k.(image := WriteAt(k.image, k.pos, d.buffer[..moved]), pos := k.pos + moved,
                                       moves := k.moves + 1));
    if moved == 512 then (d1.(offset := d1.offset + 512), true)
    else (Fault(d1, ErrorOf(h)), false)
  }

  // A sector is done; the command with it, if it was the last.
  function SectorIn(d: Drive): (d': Drive)
    requires d.length > 0
  {
    var d1 := d.(length := d.length - 1, intrq := true);
    if d1.length == 0 then Completed(d1) else d1
  }

  function SectorOut(d: Drive): (d': Drive)
    requires d.length > 0
  {
    var d1 := d.(length := d.length - 1, intrq := true);
    if d1.length == 0 then Completed(SeekComplete(d1)) else d1
  }

  // The buffer is empty: bring in the next sector.
  function Refilled(d: Drive): (r: (Drive, bool))
    requires Valid(d)
    ensures |r.0.buffer| == 512
    ensures r.1 ==> r.0.dptr < 512 && (d.phase == DATA_IN && !d.eightbit ==> r.0.dptr % 2 == 0)
  {
    if d.dptr == 512 then ReadSector(d) else (d, true)
  }

  // Two bytes as a register word, low byte first.
  function Pair(low: Byte, high: Byte): (w: Word)
  {
    low + 256 * high
  }

  // One access from the buffer.
  function Take(d: Drive, len: nat): (r: (Drive, Word))
    requires |d.buffer| == 512 && d.dptr < 512 && d.length > 0 && (d.eightbit || d.dptr % 2 == 0)
    ensures |r.0.buffer| == 512
  {
    var v: Word := if !d.eightbit && len == 2 then Pair(d.buffer[d.dptr], d.buffer[d.dptr + 1]) else d.buffer[d.dptr];
    var d1 := d.(dptr := d.dptr + if d.eightbit then 1 else 2, task := d.task.(data := v));
    (if d1.dptr == 512 then SectorIn(d1) else d1, v)
  }

  // A data register read, of one byte or two.
  function DataIn(d: Drive, len: nat): (r: (Drive, Word))
    requires Valid(d)
  {
    if d.phase != DATA_IN then (d, if len == 1 then d.task.data % 256 else d.task.data)
    else
      var (d1, ok) := Refilled(d);
      if !ok then (SetError(d1, ReportOf(Next(d.disk))), 0xFFFF)
      else
        ReadSectorKeeps(d);
        var (d2, v) := Take(d1, len);
        (d2, if len == 1 then v % 256 else v)
  }

  // One access into the buffer.
  function Store(d: Drive, v: Word): (d': Drive)
    requires |d.buffer| == 512 && d.dptr < 512 && (d.eightbit || d.dptr % 2 == 0)
    ensures |d'.buffer| == 512
  {
    if d.eightbit then
      d.(buffer := d.buffer[d.dptr := v % 256], dptr := d.dptr + 1, task := d.task.(data := v % 256))
    else
      d.(buffer := d.buffer[d.dptr := v % 256][d.dptr + 1 := v / 256], dptr := d.dptr + 2,
         task := d.task.(data := v / 256))
  }

  // The buffer is full: put it on the image.
  function Flushed(d: Drive): (d': Drive)
    requires |d.buffer| == 512 && d.length > 0
  {
    var (d1, ok) := WriteSector(d);
    if ok then SectorOut(d1) else SetError(d1, ReportOf(Next(d.disk)))
  }

  function DataOut(d: Drive, v: Word): (d': Drive)
    requires Valid(d)
  {
    if d.phase != DATA_OUT then d.(task := d.task.(data := v))
    else
      var d1 := Store(d, v);
      if d1.dptr == 512 then Flushed(d1) else d1
  }

  lemma ReadSectorKeeps(d: Drive)
    requires Valid(d)
    ensures Refilled(d).0.length == d.length && Refilled(d).0.eightbit == d.eightbit
  {
  }

  // ---------- the registers ----------

  datatype Controller = Controller(drive0: Drive, drive1: Drive, selected: nat, latch: Byte)
  {
    function Selected(): (d: Drive)
    {
      if selected == 0 then drive0 else drive1
    }

    function With(d: Drive): (c': Controller)
    {
      if selected == 0 then this.(drive0 := d) else this.(drive1 := d)
    }

    function Of(k: nat): (d: Drive)
    {
      if k == 0 then drive0 else drive1
    }
  }

  predicate Ok(c: Controller)
  {
    Valid(c.drive0) && Valid(c.drive1)
  }

  function DriveReset(d: Drive): (d': Drive)
  {
    var d1 := EddSetup(d);
    if d.present then
      d1.(eightbit := false, task := d1.task.(status := Status(false, false, true, true, false)))
    else d
  }

  function Busy(d: Drive): (d': Drive)
  {
    if d.present then d.(task := d.task.(status := d.task.status.(bsy := true))) else d
  }

  // The reset line.  Busy is raised and dropped again at once.
  function Reset(c: Controller): (c': Controller)
  {
    c.(drive0 := DriveReset(c.drive0), drive1 := DriveReset(c.drive1), selected := 0)
  }

  function SoftResetBegin(c: Controller): (c': Controller)
  {
    var c1 := Reset(c);
    c1.(drive0 := Busy(c1.drive0), drive1 := Busy(c1.drive1))
  }

  function SoftResetEnd(c: Controller): (c': Controller)
  {
    c.(drive0 := Ready(c.drive0), drive1 := Ready(c.drive1))
  }

  function Diagnosed(d: Drive): (d': Drive)
  {
    if d.present then EddSetup(d) else d
  }

  function IssueCommand(c: Controller): (c': Controller)
  {
    var d := c.Selected();
    if d.task.command == EDD then
      var c1 := c.With(Issued(d));
      c1.(drive0 := Diagnosed(c1.drive0), drive1 := Diagnosed(c1.drive1), selected := 0)
    else c.With(Command(d))
  }

  function DeviceControl(c: Controller, v: Byte): (c': Controller)
  {
    var old_ := c.Selected().task.devctrl;
    var c1 := if SoftReset(v) == SoftReset(old_) then c
              else if SoftReset(v) then SoftResetBegin(c) else SoftResetEnd(c);
    c1.(drive0 := c1.drive0.(task := c1.drive0.task.(devctrl := v)),
        drive1 := c1.drive1.(task := c1.drive1.task.(devctrl := v)))
  }

  const DATA: Byte := 0
  const FEATURE: Byte := 1
  const COUNT: Byte := 2
  const LBA_LOW: Byte := 3
  const LBA_MID: Byte := 4
  const LBA_HIGH: Byte := 5
  const LBA_TOP: Byte := 6
  const COMMAND: Byte := 7
  const CONTROL: Byte := 8
  const LATCH: Byte := 9

  function Read8(c: Controller, r: Byte): (x: (Controller, Word))
    requires Ok(c)
  {
    var d := c.Selected();
    var t := d.task;
    if r == DATA then var (d1, v) := DataIn(d, 1); (c.With(d1), v % 256)
    else if r == FEATURE then (c, t.error)
    else if r == COUNT then (c, t.count)
    else if r == LBA_LOW then (c, t.lba1)
    else if r == LBA_MID then (c, t.lba2)
    else if r == LBA_HIGH then (c, t.lba3)
    else if r == LBA_TOP then (c, t.lba4)
    else if r == COMMAND then (c.With(d.(intrq := false)), StatusByte(t.status))
    else if r == CONTROL then (c, StatusByte(t.status))
    else (c, 0xFF)
  }

  // Only the device, head and LBA bits stick.
  function TopBits(v: Byte): (t: Byte)
  {
    v % 32 + (if v / 64 % 2 == 1 then 64 else 0)
  }

  function SelectDrive(c: Controller, v: Byte): (c': Controller)
  {
    var c1 := c.(selected := v / 16 % 2);
    var d := c1.Selected();
    c1.With(d.(task := d.task.(lba4 := TopBits(v))))
  }

  function WriteRegister(d: Drive, r: Byte, v: Byte): (d': Drive)
  {
    var t := d.task;
    if r == FEATURE then d.(task := t.(feature := v))
    else if r == COUNT then d.(task := t.(count := v))
    else if r == LBA_LOW then d.(task := t.(lba1 := v))
    else if r == LBA_MID then d.(task := t.(lba2 := v))
    else if r == LBA_HIGH then d.(task := t.(lba3 := v))
    else d
  }

  // A byte write is refused while busy, and by a drive that is not there.
  predicate Refused(d: Drive, r: Byte)
  {
    r != CONTROL && (d.task.status.bsy || (!d.present && r != LBA_TOP))
  }

  function Write8(c: Controller, r: Byte, v: Byte): (c': Controller)
    requires Ok(c)
  {
    var d := c.Selected();
    if Refused(d, r) then c
    else if r == DATA then c.With(DataOut(d, v))
    else if r == LBA_TOP then SelectDrive(c, v)
    else if r == COMMAND then IssueCommand(c.With(d.(task := d.task.(command := v))))
    else if r == CONTROL then DeviceControl(c, v)
    else c.With(WriteRegister(d, r, v))
  }

  function Read16(c: Controller, r: Byte): (x: (Controller, Word))
    requires Ok(c)
  {
    if r == DATA then var (d1, v) := DataIn(c.Selected(), 2); (c.With(d1), v) else Read8(c, r)
  }

  function Write16(c: Controller, r: Byte, v: Word): (c': Controller)
    requires Ok(c)
  {
    var d := c.Selected();
    if r != CONTROL && d.task.status.bsy then c
    else if r == DATA then c.With(DataOut(d, v))
    else Write8(c, r, v % 256)
  }

  function ReadLatched(c: Controller, r: Byte): (x: (Controller, Word))
    requires Ok(c)
  {
    if r == LATCH then (c, c.latch)
    else
      var (c1, v) := Read16(c, r);
      if r == DATA then (c1.(latch := v / 256), v % 256) else (c1, v % 256)
  }

  function WriteLatched(c: Controller, r: Byte, v: Byte): (c': Controller)
    requires Ok(c)
  {
    if r == LATCH then c.(latch := v)
    else Write16(c, r, if r == DATA then Pair(v, c.latch) else v)
  }
}
