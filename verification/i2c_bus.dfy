/**
  The bit-banged I2C slave bus (i2c_bitbang.c): two wire levels written by the processor are
  decoded into START, READ, WRITE and END calls on the addressed peripheral.
 */
module I2cBus {
  import opened Basics

  // A 7-bit peripheral address.
  datatype Id = Id(bits: bv8)

  datatype Lines = Lines(clk: bool, data: bool)

  datatype Op = START | READ | WRITE | END

  datatype Phase = IDLE | ID | DATA_IN | DATA_OUT

  // A registered peripheral: its private state, and the callback that acts on it.
  datatype Client<!D> = Client(device: D, cb: (D, Op, bv8) -> (D, bv8))

  function Answer<D>(c: Client<D>, op: Op, data: bv8): (r: (Client<D>, bv8))
  {
    var (device, result) := c.cb(c.device, op, data);
    (c.(device := device), result)
  }

  // One callback made, to the peripheral with that address.
  datatype Call = Call(id: Id, op: Op, data: bv8, result: bv8)

  /** The bus.  `clients` is the list of peripherals, which never holds an address twice;
      `calls` is the history of callbacks. */
  datatype Bus<!D> = Bus(
    byte: bv8, output: bool, lines: Lines, bitcnt: nat, state: Phase, stable: bool, devid: Id,
    clients: map<Id, Client<D>>, current: Option<Id>, calls: seq<Call>)
  {
    predicate Valid()
    {
      && bitcnt < 9
      && (current.Some? ==> current.value in clients && (state == DATA_IN || state == DATA_OUT))
    }
  }

  const HIGH := Lines(true, true)

  function Reset<D>(clients: map<Id, Client<D>>): (b: Bus<D>)
    ensures b.Valid()
  {
    Bus(0, false, HIGH, 0, IDLE, true, Id(0), clients, None, [])
  }

  function Invoke<D>(b: Bus<D>, op: Op, data: bv8): (r: (Bus<D>, bv8))
    requires b.Valid()
    ensures r.0.Valid()
  {
    if b.current.None? then (b, 0xFF)
    else
      var id := b.current.value;
      var (client, result) := Answer(b.clients[id], op, data);
      (b.(clients := b.clients[id := client],
          calls := b.calls + [Call(id, op, data, result)]),
       result)
  }

  // The eighth bit of a byte has arrived.
  function ByteDone<D>(b: Bus<D>): (b': Bus<D>)
    requires b.Valid()
    ensures b'.Valid()
  {
    if b.state == ID then
      var b1 := b.(state := if b.byte & 1 == 1 then DATA_OUT else DATA_IN,
                   current := if b.devid in b.clients then Some(b.devid) else None);
      Invoke(b1, START, 0).0
    else if b.state == DATA_IN then
      Invoke(b, WRITE, b.byte).0
    else
      b
  }

  function Finish<D>(b: Bus<D>): (b': Bus<D>)
    requires b.Valid()
    ensures b'.Valid()
  {
    Invoke(b, END, 0).0.(current := None, state := IDLE, byte := 0, bitcnt := 0)
  }

  // A start condition addresses nobody yet, so the START call of the source goes nowhere here.
  function Begin<D>(b: Bus<D>): (b': Bus<D>)
    requires b.Valid()
    ensures b'.Valid()
  {
    Finish(b).(state := ID)
  }

  function ShiftIn(byte: bv8, bit: bool): (r: bv8)
  {
    (byte << 1) | (if bit then 1 else 0)
  }

  predicate TopBit(byte: bv8)
  {
    byte & 0x80 == 0x80
  }

  // The last bit of a byte: act on it, and answer with a fetched byte or an acknowledgement.
  function EighthBit<D>(b: Bus<D>): (b': Bus<D>)
    requires b.Valid()
    ensures b'.Valid()
  {
    var done := ByteDone(b);
    if done.state == DATA_OUT then
      var (fetched, result) := Invoke(done, READ, 0);
      fetched.(byte := result, output := true)
    else
      done.(output := false)
  }

  // Shift a bit out and another in; the peripheral's own bits are zero while it sends.
  function Collect<D>(b: Bus<D>, data: bool): (b': Bus<D>)
  {
    b.(output := TopBit(b.byte), byte := ShiftIn(b.byte, data && b.state != DATA_OUT), bitcnt := b.bitcnt + 1)
  }

  function DataBit<D>(b: Bus<D>, data: bool): (b': Bus<D>)
    requires b.Valid()
    ensures b'.Valid()
  {
    var b1 := Collect(b, data);
    if b1.state == ID && b1.bitcnt == 7 then b1.(devid := Id(b1.byte))
    else if b1.bitcnt == 8 then EighthBit(b1)
    else if b1.bitcnt == 9 then b1.(bitcnt := 0)
    else b1
  }

  // A falling clock edge closes a data bit, a start condition or an end condition.
  function FallingEdge<D>(b: Bus<D>, data: bool): (b': Bus<D>)
    requires b.Valid()
    ensures b'.Valid()
  {
    if b.stable then DataBit(b, data)
    else if data then Finish(b).(stable := true)
    else Begin(b).(stable := true)
  }

  // The processor writes the two lines; neither, one or both may have changed.
  function Write<D>(b: Bus<D>, lines: Lines): (b': Bus<D>)
    requires b.Valid()
    ensures b'.Valid()
  {
    if lines == b.lines then b
    else
      var b1 := if b.lines.clk && !lines.clk then FallingEdge(b, lines.data) else b;
      var b2 := if b.lines.data != lines.data && lines.clk then b1.(stable := false) else b1;
      b2.(lines := lines)
  }

  // The level the processor reads: both ends are open collector.
  function Sample<D>(b: Bus<D>): (level: bool)
  {
    b.output && b.lines.data
  }

  function Run<D>(b: Bus<D>, wave: seq<Lines>): (b': Bus<D>)
    requires b.Valid()
    ensures b'.Valid()
    decreases |wave|
  {
    if wave == [] then b else Run(Write(b, wave[0]), wave[1..])
  }

  lemma {:induction false} RunAppend<D>(b: Bus<D>, v: seq<Lines>, w: seq<Lines>)
    requires b.Valid()
    ensures Run(b, v + w) == Run(Run(b, v), w)
    decreases |v|
  {
    hide Write;
    if v == [] {
      assert v + w == w;
    } else {
      RunAppend(Write(b, v[0]), v[1..], w);
      assert (v + w)[1..] == v[1..] + w;
    }
  }
}
