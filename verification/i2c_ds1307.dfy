/**
  The DS1307 clock and memory (i2c_ds1307.c) as a peripheral of the bus: sixty-four bytes
  behind an auto-incrementing pointer, the first seven overwritten with the time whenever a
  transaction starts.
 */
module Ds1307 {
  import opened I2cBus

  // Broken-down time, in the ranges localtime promises.
  datatype Tm = Tm(sec: nat, min: nat, hour: nat, wday: nat, mday: nat, mon: nat, year: nat)
  {
    predicate InRange()
    {
      sec <= 60 && min < 60 && hour < 24 && wday < 7 && 1 <= mday <= 31 && mon < 12
    }
  }

  type Time = t: Tm | t.InRange() witness Tm(0, 0, 0, 0, 1, 0, 0)

  /** The device.  `clock` is the host's time at the n-th latching, `latched` how many
      latchings there have been. */
  datatype Chip = Chip(ram: seq<bv8>, clock24: bool, bp: nat, first: bool, clock: nat -> Time, latched: nat)

  ghost predicate Valid(rtc: Chip)
  {
    |rtc.ram| == 64 && rtc.bp < 64
  }

  function Pointer(byte: bv8): (p: nat)
    ensures p < 64
  {
    (byte & 0x3f) as nat
  }

  // Two packed decimal digits.
  function Bcd(v: nat): (b: bv8)
    requires v < 100
  {
    (v % 10 + 16 * (v / 10)) as bv8
  }

  function HourByte(hour: nat, clock24: bool): (b: bv8)
    requires hour < 24
  {
    if clock24 then Bcd(hour)
    else Bcd(hour % 12 + 1) | (if hour > 11 then 0x20 else 0) | 0x40
  }

  function DayByte(wday: nat): (b: bv8)
    requires wday < 7
  {
    (wday % 10 + 1) as bv8
  }

  function TimeBytes(tm: Time, clock24: bool): (bytes: seq<bv8>)
    ensures |bytes| == 7
  {
    [Bcd(tm.sec), Bcd(tm.min), HourByte(tm.hour, clock24), DayByte(tm.wday),
     Bcd(tm.mday), Bcd(tm.mon + 1), Bcd(tm.year % 100)]
  }

  function Freeze(rtc: Chip): (rtc': Chip)
    requires |rtc.ram| == 64
  {
    rtc.(ram := TimeBytes(rtc.clock(rtc.latched), rtc.clock24) + rtc.ram[7..], latched := rtc.latched + 1)
  }

  function ReadByte(rtc: Chip): (r: (Chip, bv8))
    requires |rtc.ram| == 64 && rtc.bp < 64
  {
    (rtc.(bp := (rtc.bp + 1) % 64), rtc.ram[rtc.bp])
  }

  function WriteByte(rtc: Chip, byte: bv8): (rtc': Chip)
    requires |rtc.ram| == 64 && rtc.bp < 64
  {
    if rtc.first then rtc.(bp := Pointer(byte), first := false)
    else
      rtc.(ram := rtc.ram[rtc.bp := byte],
           clock24 := if rtc.bp == 2 then byte & 0x20 == 0x20 else rtc.clock24,
           bp := (rtc.bp + 1) % 64)
  }

  // Entry point from the bus.
  function Callback(rtc: Chip, op: Op, data: bv8): (r: (Chip, bv8))
  {
    if |rtc.ram| != 64 || rtc.bp >= 64 then (rtc, 0xFF)
    else
      match op
      case START => (Freeze(rtc).(first := true), 0xFF)
      case READ => ReadByte(rtc)
      case WRITE => (WriteByte(rtc, data), 0xFF)
      case END => (rtc, 0xFF)
  }

  // The device as a structure in memory, its time supplied by the host.
  class Device {
    const ram: array<bv8>
    var clock24: bool
    var bp: nat
    var first: bool
    ghost const clock: nat -> Time
    ghost var latched: nat

    ghost predicate Live()
      reads this, ram
    {
      Valid(View())
    }

    ghost function View(): (rtc: Chip)
      reads this, ram
    {
      Chip(ram[..], clock24, bp, first, clock, latched)
    }

    constructor (ghost clock: nat -> Time)
      ensures Live() && fresh(ram)
      ensures View() == Chip(seq(64, _ => 0), true, 0, false, clock, 0)
    {
      ram := new bv8[64](_ => 0);
      clock24, bp, first, latched := true, 0, false, 0;
      this.clock := clock;
      new;
      assert ram[..] == seq(64, _ => 0);
    }

    method LatchTime(now: Time)
      requires Live() && now == clock(latched)
      modifies this`latched, ram
      ensures Live()
      ensures View() == Freeze(old(View()))
    {
      hide Bcd, HourByte, DayByte;
      ghost var before := ram[..];
      ram[0] := Bcd(now.sec);
      ram[1] := Bcd(now.min);
      ram[2] := HourByte(now.hour, clock24);
      ram[3] := DayByte(now.wday);
      ram[4] := Bcd(now.mday);
      ram[5] := Bcd(now.mon + 1);
      ram[6] := Bcd(now.year % 100);
      latched := latched + 1;
      assert ram[..7] == TimeBytes(now, clock24);
      assert ram[7..] == before[7..];
      assert ram[..] == ram[..7] + ram[7..];
    }

    method Call(op: Op, data: bv8, now: Time) returns (res: bv8)
      requires Live() && now == clock(latched)
      modifies this`clock24, this`bp, this`first, this`latched, ram
      ensures Live()
      ensures (View(), res) == Callback(old(View()), op, data)
    {
      hide Freeze;
      res := 0xFF;
      match op {
        case START =>
          LatchTime(now);
          first := true;
        case READ =>
          res := ram[bp];
          bp := (bp + 1) % 64;
        case WRITE =>
          if first {
            bp := Pointer(data);
            first := false;
          } else {
            ram[bp] := data;
            if bp == 2 {
              clock24 := data & 0x20 == 0x20;
            }
            bp := (bp + 1) % 64;
          }
        case END =>
      }
    }
  }
}

/** The whole path: bits written on the wire, latched in the chip, and read back as bits. */
module Ds1307OnTheWire {
  import opened Basics
  import opened I2cBus
  import opened I2cWire
  import opened I2cTransfers
  import opened Ds1307

  const RTC_ID := Id(0x68)

  function At(rtc: Chip): (c: Client<Chip>)
  {
    Client(rtc, Callback)
  }

  // A bus at rest with a working chip at the chip's address.
  ghost predicate Fitted(b: Bus<Chip>)
  {
    && b.Valid() && RTC_ID in b.clients
    && b.clients[RTC_ID].cb == Callback && Valid(b.clients[RTC_ID].device)
  }

  lemma ChipAnswers(rtc: Chip, op: Op, data: bv8)
    requires Valid(rtc)
    ensures Answer(At(rtc), op, data) == (At(Callback(rtc, op, data).0), Callback(rtc, op, data).1)
    ensures Valid(Callback(rtc, op, data).0)
  {
  }

  lemma FillFirst(ram: seq<bv8>, p: nat, data: seq<bv8>)
    requires data != [] && p + |data| <= |ram|
    ensures var ram' := ram[p := data[0]];
            ram'[..p + 1] + data[1..] + ram'[p + |data|..] == ram[..p] + data + ram[p + |data|..]
  {
    var ram' := ram[p := data[0]];
    assert ram'[..p + 1] == ram[..p] + [data[0]];
    assert ram'[p + |data|..] == ram[p + |data|..];
    assert [data[0]] + data[1..] == data;
  }

  lemma ChipStores(rtc: Chip, byte: bv8)
    requires Valid(rtc) && !rtc.first
    ensures var rtc' := Callback(rtc, WRITE, byte).0;
            rtc'.ram == rtc.ram[rtc.bp := byte] && rtc'.bp == (rtc.bp + 1) % 64 && !rtc'.first
  {
  }

  lemma NoWrites<D>(c: Client<D>)
    ensures ClientWrites(c, []) == c
  {
  }

  lemma FirstWrite<D>(c: Client<D>, data: seq<bv8>)
    requires data != []
    ensures ClientWrites(c, data) == ClientWrites(Answer(c, WRITE, data[0]).0, data[1..])
  {
  }

  // Consecutive writes fill consecutive bytes.
  lemma {:induction false} WritesFill(rtc: Chip, data: seq<bv8>)
    requires Valid(rtc) && !rtc.first && rtc.bp + |data| <= 64
    ensures var c := ClientWrites(At(rtc), data);
            && c.cb == Callback && Valid(c.device)
            && c.device.ram == rtc.ram[..rtc.bp] + data + rtc.ram[rtc.bp + |data|..]
    decreases |data|
  {
    hide Answer, Callback, ClientWrites;
    if data == [] {
      NoWrites(At(rtc));
      assert rtc.ram == rtc.ram[..rtc.bp] + data + rtc.ram[rtc.bp..];
    } else {
      ChipAnswers(rtc, WRITE, data[0]);
      FillFirst(rtc.ram, rtc.bp, data);
      ChipStores(rtc, data[0]);
      FirstWrite(At(rtc), data);
      var rtc' := Callback(rtc, WRITE, data[0]).0;
      if |data| == 1 {
        NoWrites(At(rtc'));
        assert data[1..] == [];
        assert rtc'.ram == rtc'.ram[..rtc.bp + 1] + [] + rtc'.ram[rtc.bp + 1..];
      } else {
        WritesFill(rtc', data[1..]);
      }
    }
  }

  lemma ChipReads(rtc: Chip)
    requires Valid(rtc)
    ensures Callback(rtc, READ, 0) == (rtc.(bp := (rtc.bp + 1) % 64), rtc.ram[rtc.bp])
  {
  }

  // Consecutive reads below the top return consecutive bytes.
  lemma {:induction false} ReadsReturn(rtc: Chip, n: nat)
    requires Valid(rtc) && rtc.bp + n <= 64
    ensures ClientReads(At(rtc), n).1 == rtc.ram[rtc.bp..rtc.bp + n]
    decreases n
  {
    hide Answer, Callback;
    if n > 0 {
      ChipReads(rtc);
      ChipAnswers(rtc, READ, 0);
      var rtc' := Callback(rtc, READ, 0).0;
      var vs := ClientReads(At(rtc'), n - 1).1;
      assert ClientReads(At(rtc), n).1 == [rtc.ram[rtc.bp]] + vs;
      if n == 1 {
        assert [rtc.ram[rtc.bp]] + vs == [rtc.ram[rtc.bp]];
      } else {
        ReadsReturn(rtc', n - 1);
        assert rtc'.ram == rtc.ram && rtc'.bp == rtc.bp + 1;
        assert rtc.ram[rtc.bp..rtc.bp + n] == [rtc.ram[rtc.bp]] + rtc.ram[rtc.bp + 1..rtc.bp + n];
      }
    }
  }

  // A write of a pointer byte and data leaves the data at the pointer.
  lemma Store(b: Bus<Chip>, a: bv8, data: seq<bv8>, acks: seq<bool>)
    requires Fitted(b) && Pointer(a) + |data| <= 64 && |acks| == |data| + 2
    ensures var r := TakeAll(b, WriteSymbols(RTC_ID, [a] + data, acks));
            && r.current == Some(RTC_ID) && Fitted(r)
            && var p, ram := Pointer(a), r.clients[RTC_ID].device.ram;
            ram[p..p + |data|] == data
            && (data == [] ==> r.clients[RTC_ID].device.bp == p && !r.clients[RTC_ID].device.first)
            && (data == [] ==> ram[7..] == b.clients[RTC_ID].device.ram[7..])
  {
    hide TakeAll, WriteSymbols, Finish, Select, Writes, Answer, ClientWrites;
    WriteTaken(b, RTC_ID, [a] + data, acks);
    var f := Finish(b);
    FinishClient(b, RTC_ID);
    ChipAnswers(b.clients[RTC_ID].device, END, 0);
    assert b.clients[RTC_ID] == At(b.clients[RTC_ID].device);
    var chip := f.clients[RTC_ID].device;
    assert f.clients[RTC_ID] == At(chip) && chip == b.clients[RTC_ID].device;
    SelectClient(f, RTC_ID, false);
    ChipAnswers(chip, START, 0);
    var started := Callback(chip, START, 0).0;
    WritesClient(Select(f, RTC_ID, false), [a] + data);
    StoreInChip(started, a, data);
    assert started.ram[7..] == chip.ram[7..];
  }

  lemma StoreInChip(rtc: Chip, a: bv8, data: seq<bv8>)
    requires Valid(rtc) && rtc.first && Pointer(a) + |data| <= 64
    ensures var c := ClientWrites(At(rtc), [a] + data);
            && c.cb == Callback && Valid(c.device)
            && var p := Pointer(a);
            c.device.ram[p..p + |data|] == data
            && (data == [] ==> c.device == rtc.(bp := p, first := false))
  {
    hide Answer, Pointer;
    ChipAnswers(rtc, WRITE, a);
    var pointed := rtc.(bp := Pointer(a), first := false);
    assert ([a] + data)[0] == a && ([a] + data)[1..] == data;
    assert ClientWrites(At(rtc), [a] + data) == ClientWrites(At(pointed), data);
    WritesFill(pointed, data);
  }

  /** Reading from the pointer, by any waveform and after anything, returns what is there,
      provided the time registers are not in it. */
  lemma Fetch(b: Bus<Chip>, before: seq<Symbol>, ack: bool, levels: seq<bool>, wave: seq<Lines>, moments: seq<seq<nat>>)
    requires b.Valid() && Fitted(TakeAll(b, before))
    requires var chip := TakeAll(b, before).clients[RTC_ID].device;
             7 <= chip.bp && chip.bp + |moments| <= 64
    requires Symbols(b.lines, b.stable, wave) == before + ReadSymbols(RTC_ID, ack, levels)
    requires LooksAtAll(b, wave, |before| + 10, moments)
    ensures var chip := TakeAll(b, before).clients[RTC_ID].device;
            SampledBytes(b, wave, |before| + 10, moments) == chip.ram[chip.bp..chip.bp + |moments|]
  {
    hide TakeAll, Finish, Select, Reads, Answer, ClientReads, Symbols, ReadSymbols, LooksAtAll, Freeze;
    ReadBack(b, before, RTC_ID, ack, levels, wave, moments);
    var c := TakeAll(b, before);
    var chip := c.clients[RTC_ID].device;
    assert c.clients[RTC_ID] == At(chip);
    FinishClient(c, RTC_ID);
    ChipAnswers(chip, END, 0);
    SelectClient(Finish(c), RTC_ID, true);
    ReadsClient(Select(Finish(c), RTC_ID, true), |moments|);
    FetchFromChip(chip, |moments|);
  }

  lemma ChipStarts(rtc: Chip)
    requires Valid(rtc)
    ensures var rtc' := Callback(rtc, START, 0).0;
            Valid(rtc') && rtc'.ram[7..] == rtc.ram[7..] && rtc'.bp == rtc.bp && rtc'.first
  {
  }

  lemma AboveClock(ram: seq<bv8>, k: nat, n: nat)
    requires 7 <= k && k + n <= |ram|
    ensures ram[k..k + n] == ram[7..][k - 7..k + n - 7]
  {
    var above := ram[7..];
    var left, right := ram[k..k + n], above[k - 7..k + n - 7];
    assert |left| == |right| == n;
    forall i | 0 <= i < n
      ensures left[i] == right[i]
    {
      assert left[i] == ram[k + i] == above[k - 7 + i];
    }
  }

  lemma FetchFromChip(chip: Chip, n: nat)
    requires Valid(chip) && 7 <= chip.bp && chip.bp + n <= 64
    ensures ClientReads(Answer(At(chip), START, 0).0, n).1 == chip.ram[chip.bp..chip.bp + n]
  {
    hide Answer, ClientReads, Callback;
    ChipAnswers(chip, START, 0);
    ChipStarts(chip);
    var started := Callback(chip, START, 0).0;
    ReadsReturn(started, n);
    AboveClock(started.ram, chip.bp, n);
    AboveClock(chip.ram, chip.bp, n);
  }

  // Between transfers a master may stop or go straight on to the next start.
  function Gap(stop: bool): (s: seq<Symbol>)
  {
    if stop then [StopCondition] else []
  }

  lemma GapPassed(b: Bus<Chip>, stop: bool)
    requires Fitted(b)
    ensures var r := TakeAll(b, Gap(stop));
            Fitted(r) && r.clients[RTC_ID] == b.clients[RTC_ID]
  {
    hide Answer, Callback, Finish;
    if stop {
      TakeOne(b, StopCondition);
      FinishClient(b, RTC_ID);
      ChipAnswers(b.clients[RTC_ID].device, END, 0);
      ChipEnds(b.clients[RTC_ID].device);
      assert b.clients[RTC_ID] == At(b.clients[RTC_ID].device);
    }
  }

  lemma ChipEnds(rtc: Chip)
    ensures Callback(rtc, END, 0).0 == rtc
  {
  }

  // What goes before the read: the data written, and the pointer set again.
  function Prelude(a: bv8, data: seq<bv8>, acks: seq<bool>, stop: bool, acks2: seq<bool>, stop2: bool): (s: seq<Symbol>)
    requires |acks| == |data| + 2 && |acks2| == 2
  {
    WriteSymbols(RTC_ID, [a] + data, acks) + Gap(stop) + (WriteSymbols(RTC_ID, [a], acks2) + Gap(stop2))
  }

  lemma PreludePoints(b: Bus<Chip>, a: bv8, data: seq<bv8>, acks: seq<bool>, stop: bool, acks2: seq<bool>, stop2: bool)
    requires Fitted(b) && |acks| == |data| + 2 && |acks2| == 2
    requires 7 <= Pointer(a) && Pointer(a) + |data| <= 64
    ensures var r := TakeAll(b, Prelude(a, data, acks, stop, acks2, stop2));
            && Fitted(r)
            && var chip, k := r.clients[RTC_ID].device, Pointer(a);
            chip.bp == k && chip.ram[k..k + |data|] == data
  {
    hide TakeAll, WriteSymbols, Pointer, Callback, Gap;
    var first, second := WriteSymbols(RTC_ID, [a] + data, acks), WriteSymbols(RTC_ID, [a], acks2);
    TakeAppend(b, first + Gap(stop), second + Gap(stop2));
    TakeAppend(b, first, Gap(stop));
    Store(b, a, data, acks);
    GapPassed(TakeAll(b, first), stop);
    var b1 := TakeAll(b, first + Gap(stop));
    assert [a] + [] == [a];
    Store(b1, a, [], acks2);
    TakeAppend(b1, second, Gap(stop2));
    GapPassed(TakeAll(b1, second), stop2);
    var ram, ram' := b1.clients[RTC_ID].device.ram, TakeAll(b1, second).clients[RTC_ID].device.ram;
    AboveClock(ram, Pointer(a), |data|);
    AboveClock(ram', Pointer(a), |data|);
  }

  /** End to end.  Data written bit by bit to addresses above the clock is read back bit by
      bit, after a pointer write and another start, with or without stops between, whatever the
      host's clock says, whatever waveform the master drives, and whenever it looks. */
  lemma WireRoundTrip(b: Bus<Chip>, a: bv8, data: seq<bv8>, acks: seq<bool>, stop: bool, acks2: seq<bool>, stop2: bool,
                      ack: bool, levels: seq<bool>, wave: seq<Lines>, moments: seq<seq<nat>>)
    requires Fitted(b) && |acks| == |data| + 2 && |acks2| == 2 && |moments| == |data|
    requires 7 <= Pointer(a) && Pointer(a) + |data| <= 64
    requires var before := Prelude(a, data, acks, stop, acks2, stop2);
             && Symbols(b.lines, b.stable, wave) == before + ReadSymbols(RTC_ID, ack, levels)
             && LooksAtAll(b, wave, |before| + 10, moments)
    ensures SampledBytes(b, wave, |Prelude(a, data, acks, stop, acks2, stop2)| + 10, moments) == data
  {
    hide TakeAll, Pointer, Prelude, Symbols, ReadSymbols, LooksAtAll, SampledBytes;
    PreludePoints(b, a, data, acks, stop, acks2, stop2);
    Fetch(b, Prelude(a, data, acks, stop, acks2, stop2), ack, levels, wave, moments);
  }
}
