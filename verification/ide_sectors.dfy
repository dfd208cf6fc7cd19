/**
  Sector transfers of one drive, access by access: what has gone through the buffer so far is
  what is, or will be, on the image.
 */
module IdeSectors {
  import opened Basics
  import opened Ide
  import opened IdeSafety

  // ---------- the image ----------

  lemma WriteAtAppend(image: Bytes, pos: nat, a: Bytes, b: Bytes)
    ensures WriteAt(WriteAt(image, pos, a), pos + |a|, b) == WriteAt(image, pos, a + b)
  {
    if a == [] {
      assert a + b == b;
    } else if b == [] {
      assert a + b == a;
    } else {
      WriteAtIs(image, pos, a);
      WriteAtIs(WriteAt(image, pos, a), pos + |a|, b);
      WriteAtIs(image, pos, a + b);
      hide WriteAt;
      assert WriteAt(WriteAt(image, pos, a), pos + |a|, b) == WriteAt(image, pos, a + b);
    }
  }

  // Byte by byte: what was written, what was there, or the zeros a gap is filled with.
  lemma WriteAtIs(image: Bytes, pos: nat, data: Bytes)
    requires data != []
    ensures var r := WriteAt(image, pos, data);
            && |r| == (if |image| >= pos + |data| then |image| else pos + |data|)
            && forall i :: 0 <= i < |r| ==>
                 r[i] == if pos <= i < pos + |data| then data[i - pos] else if i < |image| then image[i] else 0
  {
  }

  // What is written is there, and nothing else has changed.
  lemma WriteAtReads(image: Bytes, pos: nat, data: Bytes)
    requires data != []
    ensures var r := WriteAt(image, pos, data);
            && pos + |data| <= |r| && |image| <= |r| && r[pos..pos + |data|] == data
            && (forall i :: 0 <= i < |image| && !(pos <= i < pos + |data|) ==> r[i] == image[i])
  {
    hide WriteAt;
    WriteAtIs(image, pos, data);
  }

  // ---------- writing ----------

  // The host moves every sector whole.
  ghost predicate AllHealthy(k: Disk)
  {
    (forall i :: Next(k.(moves := i)) == Healthy) && forall i :: Seeks(k.(seeks := i))
  }

  lemma HealthyNow(k: Disk)
    requires AllHealthy(k)
    ensures Next(k) == Healthy && Seeks(k)
  {
    assert k == k.(moves := k.moves) == k.(seeks := k.seeks);
    assert Next(k.(moves := k.moves)) == Healthy && Seeks(k.(seeks := k.seeks));
  }

  // What a transfer leaves alone.
  ghost predicate SameUnit(d0: Drive, d: Drive)
  {
    && SameDrive(d0, d) && d.failed == d0.failed && d.eightbit == d0.eightbit
    && AllHealthy(d.disk) && d.task.status.err == d0.task.status.err && !d.task.status.bsy
  }

  // The bytes one access carries.
  function Carried(d: Drive, v: Word): (bytes: Bytes)
    ensures |bytes| == if d.eightbit then 1 else 2
  {
    if d.eightbit then [v % 256] else [v % 256, v / 256]
  }

  /** Of the n sectors that started with d0, the bytes in data have been handed over: whole
      sectors are on the image, the rest is in the buffer. */
  ghost predicate Writing(d0: Drive, d: Drive, n: nat, data: Bytes)
  {
    && Valid(d) && SameUnit(d0, d) && d.phase == DATA_OUT && d.length <= n && d.task.status.drdy
    && |data| == 512 * (n - d.length) + d.dptr
    && d.disk.pos == d0.disk.pos + 512 * (n - d.length)
    && d.buffer[..d.dptr] == data[512 * (n - d.length)..]
    && d.disk.image == WriteAt(d0.disk.image, d0.disk.pos, data[..512 * (n - d.length)])
  }

  ghost predicate Written(d0: Drive, d: Drive, data: Bytes)
  {
    && Valid(d) && SameUnit(d0, d) && d.phase == IDLE && d.task.status.dsc && !d.task.status.drq && d.task.status.drdy
    && d.disk.image == WriteAt(d0.disk.image, d0.disk.pos, data)
  }

  ghost predicate Sent(d0: Drive, d: Drive, n: nat, data: Bytes)
  {
    |data| <= 512 * n && if |data| < 512 * n then Writing(d0, d, n, data) else Written(d0, d, data)
  }

  // Some bytes into the buffer.
  lemma StoreIs(d: Drive, v: Word)
    requires Valid(d) && d.phase == DATA_OUT
    ensures var r := Store(d, v);
            && r.buffer[..r.dptr] == d.buffer[..d.dptr] + Carried(d, v)
            && r.dptr == d.dptr + |Carried(d, v)| && r.dptr <= 512
            && r == d.(buffer := r.buffer, dptr := r.dptr, task := r.task)
            && r.task == d.task.(data := r.task.data)
  {
  }

  lemma WriteSectorHealthy(d: Drive)
    requires |d.buffer| == 512 && Next(d.disk) == Healthy
    ensures WriteSector(d)
            == (d.(dptr := 0, offset := d.offset + 512,
                   disk := d.disk.(image := WriteAt(d.disk.image, d.disk.pos, d.buffer), pos := d.disk.pos + 512,
                                   moves := d.disk.moves + 1)),
                true)
  {
    hide WriteAt;
    assert d.buffer[..512] == d.buffer;
  }

  // Another access while the buffer has room.
  lemma StoreWrites(d0: Drive, d: Drive, n: nat, data: Bytes, v: Word)
    requires Writing(d0, d, n, data) && Store(d, v).dptr < 512
    ensures Writing(d0, Store(d, v), n, data + Carried(d, v))
  {
    hide Store, Carried, WriteAt, AllHealthy;
    StoreIs(d, v);
    var m := 512 * (n - d.length);
    assert (data + Carried(d, v))[m..] == data[m..] + Carried(d, v);
    assert (data + Carried(d, v))[..m] == data[..m];
  }

  // A full buffer joins what is on the image.
  lemma FlushWrites(d0: Drive, d: Drive, n: nat, data: Bytes)
    requires |d.buffer| == 512 && |d.geometry.identify| == 512 && SameUnit(d0, d) && d.phase == DATA_OUT && 0 < d.length <= n
    requires |data| == 512 * (n - d.length) + 512
    requires d.disk.pos == d0.disk.pos + 512 * (n - d.length)
    requires d.buffer == data[512 * (n - d.length)..]
    requires d.disk.image == WriteAt(d0.disk.image, d0.disk.pos, data[..512 * (n - d.length)])
    requires d.task.status.drdy
    ensures Sent(d0, Flushed(d), n, data)
  {
    hide WriteAt, WriteSector, AllHealthy;
    HealthyNow(d.disk);
    WriteSectorHealthy(d);
    var d1 := WriteSector(d).0;
    var m := 512 * (n - d.length);
    WriteAtAppend(d0.disk.image, d0.disk.pos, data[..m], data[m..]);
    assert data[..m] + data[m..] == data;
    assert data[..|data|] == data;
    HealthyStays(d.disk, d1.disk);
    assert 512 * (n - (d.length - 1)) == |data| && data[|data|..] == [];
    assert Flushed(d) == SectorOut(d1);
  }

  lemma HealthyStays(k: Disk, k': Disk)
    requires AllHealthy(k) && k'.host == k.host && k'.lseek == k.lseek
    ensures AllHealthy(k')
  {
    forall i
      ensures Seeks(k'.(seeks := i))
    {
      assert Seeks(k.(seeks := i));
    }
    forall i
      ensures Next(k'.(moves := i)) == Healthy
    {
      assert Next(k.(moves := i)) == Healthy;
    }
  }

  lemma OneOut(d0: Drive, d: Drive, n: nat, data: Bytes, v: Word)
    requires Writing(d0, d, n, data)
    ensures Sent(d0, DataOut(d, v), n, data + Carried(d, v))
  {
    hide Store, Carried, WriteAt, AllHealthy, Flushed;
    StoreIs(d, v);
    var d1 := Store(d, v);
    if d1.dptr < 512 {
      StoreWrites(d0, d, n, data, v);
    } else {
      var m := 512 * (n - d.length);
      assert d1.buffer[..512] == d1.buffer;
      assert (data + Carried(d, v))[m..] == data[m..] + Carried(d, v);
      assert (data + Carried(d, v))[..m] == data[..m];
      FlushWrites(d0, d1, n, data + Carried(d, v));
    }
  }

  // ---------- reading ----------

  /** Of the n sectors that started with d0, q bytes have been taken: the buffer is used up, or
      holds the sector the next byte is in. */
  ghost predicate Reading(d0: Drive, d: Drive, n: nat, q: nat)
  {
    && Valid(d) && SameUnit(d0, d) && d.phase == DATA_IN && d.length <= n && d.task.status.drdy
    && d.disk.image == d0.disk.image && d0.disk.pos + 512 * n <= |d0.disk.image|
    && q == 512 * (n - d.length) + (if d.dptr == 512 then 0 else d.dptr)
    && if d.dptr == 512 then d.disk.pos == d0.disk.pos + q
       else && d.disk.pos == d0.disk.pos + 512 * (n - d.length) + 512
            && d.buffer == d.disk.image[d.disk.pos - 512..d.disk.pos]
  }

  ghost predicate AllRead(d0: Drive, d: Drive)
  {
    && Valid(d) && SameUnit(d0, d) && d.phase == IDLE && !d.task.status.drq && d.task.status.drdy
    && d.disk.image == d0.disk.image
  }

  ghost predicate Received(d0: Drive, d: Drive, n: nat, q: nat)
  {
    q <= 512 * n && if q < 512 * n then Reading(d0, d, n, q) else AllRead(d0, d)
  }

  // A used-up buffer is refilled from the image.
  lemma RefilledReads(d0: Drive, d: Drive, n: nat, q: nat)
    requires Reading(d0, d, n, q)
    ensures var (r, ok) := Refilled(d);
            && ok && Reading(d0, r, n, q) && r.dptr < 512 && r.eightbit == d.eightbit
            && r.buffer[r.dptr] == d0.disk.image[d0.disk.pos + q]
            && r.dptr == q - 512 * (n - r.length)
            && (r.dptr + 1 < 512 ==> r.buffer[r.dptr + 1] == d0.disk.image[d0.disk.pos + q + 1])
  {
    hide AllHealthy;
    HealthyNow(d.disk);
    if d.dptr == 512 {
      var k := d.disk;
      FullSector(d);
      assert k.image[k.pos..k.pos + 512] + d.buffer[512..] == k.image[k.pos..k.pos + 512];
      HealthyStays(d.disk, Refilled(d).0.disk);
    }
  }

  lemma FullSector(d: Drive)
    requires d.disk.pos + 512 <= |d.disk.image|
    ensures Available(d.disk.image, d.disk.pos) == 512
  {
  }

  // One access on: the buffer, the image and the position are as they were.
  lemma TakeIs(d: Drive, len: nat)
    requires Valid(d) && d.phase == DATA_IN && d.dptr < 512
    ensures var r, u := Take(d, len).0, if d.eightbit then 1 else 2;
            && Valid(r) && SameDrive(d, r) && r.failed == d.failed && r.eightbit == d.eightbit
            && r.buffer == d.buffer && r.disk == d.disk && r.dptr == d.dptr + u && r.dptr <= 512
            && r.task.status.err == d.task.status.err && (d.task.status.drdy ==> r.task.status.drdy)
            && (!d.task.status.bsy ==> !r.task.status.bsy)
            && (r.dptr < 512 ==> r.phase == DATA_IN && r.length == d.length)
            && (r.dptr == 512 ==> r.length == d.length - 1 && (r.length > 0 ==> r.phase == DATA_IN))
            && (r.dptr == 512 && r.length == 0 ==> r.phase == IDLE && !r.task.status.drq && r.task.status.drdy)
  {
    hide Pair;
  }

  // Taking one access from a buffer that holds it.
  lemma TakeReads(d0: Drive, d: Drive, n: nat, q: nat, len: nat)
    requires Reading(d0, d, n, q) && d.dptr < 512
    ensures Received(d0, Take(d, len).0, n, q + if d.eightbit then 1 else 2)
  {
    hide AllHealthy, Take, Valid;
    ReadingValid(d0, d, n, q);
    TakeIs(d, len);
    HealthyStays(d.disk, Take(d, len).0.disk);
  }

  lemma ReadingValid(d0: Drive, d: Drive, n: nat, q: nat)
    requires Reading(d0, d, n, q)
    ensures Valid(d) && d.length > 0 && |d.buffer| == 512 && (d.eightbit || d.dptr % 2 == 0)
  {
    hide AllHealthy;
  }

  // What the image holds where the q-th byte of the transfer is.
  function ImageByte(d0: Drive, q: nat): (b: Byte)
    requires d0.disk.pos + q < |d0.disk.image|
  {
    d0.disk.image[d0.disk.pos + q]
  }

  lemma OneIn(d0: Drive, d: Drive, n: nat, q: nat, len: nat)
    requires Reading(d0, d, n, q) && (len == 1 || len == 2)
    ensures q < 512 * n && (!d.eightbit ==> q + 1 < 512 * n)
    ensures d0.disk.pos + 512 * n <= |d0.disk.image|
    ensures var (r, v) := DataIn(d, len);
            && Received(d0, r, n, q + if d.eightbit then 1 else 2)
            && (d.eightbit || len == 1 ==> v == ImageByte(d0, q))
            && (!d.eightbit && len == 2 ==> v == Pair(ImageByte(d0, q), ImageByte(d0, q + 1)))
  {
    hide AllHealthy, Refilled, Received;
    RefilledReads(d0, d, n, q);
    TakeReads(d0, Refilled(d).0, n, q, len);
  }
}
