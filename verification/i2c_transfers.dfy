/**
  Whole transfers on the wire: the calls a peripheral receives, in order and in number, and
  the effect on its state.
 */
module I2cTransfers {
  import opened Basics
  import opened I2cBus
  import opened I2cWire

  // ---------- the calls, leaving out what was answered ----------

  type Request = (Id, Op, bv8)

  function Requests(calls: seq<Call>): (rs: seq<Request>)
  {
    seq(|calls|, i requires 0 <= i < |calls| => (calls[i].id, calls[i].op, calls[i].data))
  }

  function WriteRequests(id: Id, data: seq<bv8>): (rs: seq<Request>)
  {
    seq(|data|, i requires 0 <= i < |data| => (id, WRITE, data[i]))
  }

  function ReadRequests(id: Id, n: nat): (rs: seq<Request>)
  {
    seq(n, _ => (id, READ, 0 as bv8))
  }

  lemma InvokeRequests<D>(b: Bus<D>, op: Op, data: bv8)
    requires b.Valid() && b.current.Some?
    ensures var r := Invoke(b, op, data).0;
            Requests(r.calls) == Requests(b.calls) + [(b.current.value, op, data)] && r.current == b.current
  {
  }

  lemma {:induction false} WritesRequests<D>(b: Bus<D>, data: seq<bv8>)
    requires b.Valid() && b.current.Some?
    ensures Requests(Writes(b, data).calls) == Requests(b.calls) + WriteRequests(b.current.value, data)
    ensures Writes(b, data).current == b.current
    decreases |data|
  {
    hide Invoke, Requests;
    if data == [] {
    } else {
      InvokeRequests(b, WRITE, data[0]);
      WritesRequests(Invoke(b, WRITE, data[0]).0, data[1..]);
      assert WriteRequests(b.current.value, data)
          == [(b.current.value, WRITE, data[0])] + WriteRequests(b.current.value, data[1..]);
    }
  }

  lemma {:induction false} ReadsRequests<D>(b: Bus<D>, n: nat)
    requires b.Valid() && b.current.Some?
    ensures Requests(Reads(b, n).0.calls) == Requests(b.calls) + ReadRequests(b.current.value, n)
    ensures Reads(b, n).0.current == b.current
    decreases n
  {
    hide Invoke, Requests;
    if n > 0 {
      InvokeRequests(b, READ, 0);
      ReadsRequests(Invoke(b, READ, 0).0, n - 1);
      assert ReadRequests(b.current.value, n) == [(b.current.value, READ, 0 as bv8)] + ReadRequests(b.current.value, n - 1);
    }
  }

  lemma SelectRequests<D>(b: Bus<D>, id: Id, reading: bool)
    requires b.Valid() && id in b.clients
    ensures var r := Select(b, id, reading);
            Requests(r.calls) == Requests(b.calls) + [(id, START, 0 as bv8)] && r.current == Some(id)
  {
    hide Invoke, Requests;
    InvokeRequests(b.(state := if reading then DATA_OUT else DATA_IN, current := Some(id)), START, 0);
  }

  // ---------- transfers ----------

  function WriteSymbols(id: Id, data: seq<bv8>, acks: seq<bool>): (s: seq<Symbol>)
    requires |acks| == |data| + 1
  {
    AddressSymbols(id, false, acks[0]) + BytesSymbols(data, acks[1..])
  }

  // Start, address and n bytes leave the bus, at byte level, where selecting and n writes do.
  lemma WriteTaken<D>(b: Bus<D>, id: Id, data: seq<bv8>, acks: seq<bool>)
    requires b.Valid() && id.bits < 0x80 && |acks| == |data| + 1
    ensures var r := TakeAll(b, WriteSymbols(id, data, acks));
            AtByte(r) && SameBytes(r, Writes(Select(Finish(b), id, false), data))
  {
    hide TakeAll, AddressSymbols, BytesSymbols, Finish, Select;
    TakeAppend(b, AddressSymbols(id, false, acks[0]), BytesSymbols(data, acks[1..]));
    AddressedForWriting(b, id, acks[0]);
    var b1 := TakeAll(b, AddressSymbols(id, false, acks[0]));
    BytesWrite(b1, data, acks[1..]);
    WritesSame(b1, Select(Finish(b), id, false), data);
  }

  /** Whatever waveform a master writes with, and whatever was on the bus: the transfer is, up
      to the place within a byte, the byte-level select and writes. */
  lemma WriteTransfer<D>(b: Bus<D>, id: Id, data: seq<bv8>, acks: seq<bool>, wave: seq<Lines>)
    requires b.Valid() && id.bits < 0x80 && |acks| == |data| + 1
    requires Symbols(b.lines, b.stable, wave) == WriteSymbols(id, data, acks)
    ensures var r := Run(b, wave);
            AtByte(r) && SameBytes(r, Writes(Select(Finish(b), id, false), data))
  {
    hide TakeAll, WriteSymbols, Run, Finish, Select;
    WaveIs(b, wave);
    WriteTaken(b, id, data, acks);
  }

  // A peripheral written n bytes has received exactly START and the n bytes in order, and one
  // END once a falling edge has closed a stop or another start, but not before.
  lemma WriteTransferCalls<D>(b: Bus<D>, id: Id, data: seq<bv8>, acks: seq<bool>, ending: Option<Symbol>, wave: seq<Lines>)
    requires b.Valid() && id.bits < 0x80 && id in b.clients && |acks| == |data| + 1
    requires ending.Some? ==> !ending.value.Bit?
    requires Symbols(b.lines, b.stable, wave)
             == WriteSymbols(id, data, acks) + (if ending.Some? then [ending.value] else [])
    ensures Requests(Run(b, wave).calls)
            == Requests(Finish(b).calls) + [(id, START, 0 as bv8)] + WriteRequests(id, data)
               + (if ending.Some? then [(id, END, 0 as bv8)] else [])
  {
    hide TakeAll, Take, Run, Finish, Select, Requests, WriteSymbols, Invoke;
    WaveIs(b, wave);
    FinishIdle(b);
    WriteTaken(b, id, data, acks);
    SelectRequests(Finish(b), id, false);
    WritesRequests(Select(Finish(b), id, false), data);
    var r := TakeAll(b, WriteSymbols(id, data, acks));
    if ending.Some? {
      TakeAppend(b, WriteSymbols(id, data, acks), [ending.value]);
      TakeOne(r, ending.value);
      ConditionEnds(r, ending.value);
      InvokeRequests(r, END, 0);
    } else {
      assert WriteSymbols(id, data, acks) + [] == WriteSymbols(id, data, acks);
    }
  }

  lemma ConditionEnds<D>(b: Bus<D>, s: Symbol)
    requires b.Valid() && !s.Bit?
    ensures Take(b, s).calls == Invoke(b, END, 0).0.calls && Take(b, s).current == None
  {
    hide Invoke;
  }

  // A start or stop is only noticed at the next falling edge, where END is delivered.
  lemma EndAtFallingEdge<D>(b: Bus<D>, data: bool)
    requires b.Valid() && b.lines.clk && !b.stable
    ensures Write(b, Lines(false, data)).calls == Invoke(b, END, 0).0.calls
    ensures Write(b, Lines(false, data)).current == None
  {
    hide Invoke;
  }

  function ReadSymbols(id: Id, ack: bool, levels: seq<bool>): (s: seq<Symbol>)
  {
    AddressSymbols(id, true, ack) + BitSymbols(levels)
  }

  // A read n bytes and k clocks long has made one READ ahead, and its last one shows.
  lemma ReadTaken<D>(b: Bus<D>, id: Id, ack: bool, levels: seq<bool>, n: nat, k: nat)
    requires b.Valid() && id.bits < 0x80 && id in b.clients && k < 9 && |levels| == 9 * n + k
    ensures var r := TakeAll(b, ReadSymbols(id, ack, levels));
            var sel := Select(Finish(b), id, true);
            && SameBytes(r, Reads(sel, Fetched(n, k) + 1).0)
            && (r.output <==> (k < 8 ==> Bits(Reads(sel, n + 1).1[n])[k]))
  {
    hide TakeAll, AddressSymbols, BitSymbols, Finish, Select, Invoke, Shown, Bits, Reads;
    TakeAppend(b, AddressSymbols(id, true, ack), BitSymbols(levels));
    AddressedForReading(b, id, ack);
    var b1 := TakeAll(b, AddressSymbols(id, true, ack));
    var sel := Select(Finish(b), id, true);
    BytesShow(b1, Invoke(sel, READ, 0).1, levels, n, k);
    ShownFromSelect(sel, b1, n, k, TakeAll(b1, BitSymbols(levels)));
  }

  lemma ShownFromSelect<D>(sel: Bus<D>, b1: Bus<D>, n: nat, k: nat, r: Bus<D>)
    requires sel.Valid() && b1.Valid() && SameBytes(b1, Invoke(sel, READ, 0).0) && k < 9
    requires Shown(b1, Invoke(sel, READ, 0).1, n, k, r)
    ensures SameBytes(r, Reads(sel, Fetched(n, k) + 1).0)
    ensures r.output <==> (k < 8 ==> Bits(Reads(sel, n + 1).1[n])[k])
  {
    hide Invoke, Bits, Loaded, Reads;
    ReadsSame(b1, Invoke(sel, READ, 0).0, n);
    ReadsSame(b1, Invoke(sel, READ, 0).0, Fetched(n, k));
    FirstRead(sel, n);
    FirstRead(sel, Fetched(n, k));
  }

  /** A read, by any waveform and up to any moment of it, n bytes and k clocks after the address:
      there have been a START and the READs, and what the master samples then is its own level
      and bit k of the last READ's result but for those fetched ahead. */
  lemma ReadTransfer<D>(b: Bus<D>, id: Id, ack: bool, levels: seq<bool>, n: nat, k: nat, wave: seq<Lines>)
    requires b.Valid() && id.bits < 0x80 && id in b.clients && k < 9 && |levels| == 9 * n + k
    requires Symbols(b.lines, b.stable, wave) == ReadSymbols(id, ack, levels)
    ensures var r := Run(b, wave);
            var sel := Select(Finish(b), id, true);
            && SameBytes(r, Reads(sel, Fetched(n, k) + 1).0)
            && Requests(r.calls)
               == Requests(Finish(b).calls) + [(id, START, 0 as bv8)] + ReadRequests(id, Fetched(n, k) + 1)
            && (Sample(r) <==> Level(b.lines, wave).data && (k < 8 ==> Bits(Reads(sel, n + 1).1[n])[k]))
  {
    hide TakeAll, ReadSymbols, Run, Finish, Select, Requests, Invoke, Bits, Reads;
    WaveIs(b, wave);
    ReadTaken(b, id, ack, levels, n, k);
    FinishIdle(b);
    SelectRequests(Finish(b), id, true);
    ReadsRequests(Select(Finish(b), id, true), Fetched(n, k) + 1);
  }

  // ---------- what a master reads ----------

  // The data line released at a moment when so many symbols have gone by.
  predicate Released<D>(b: Bus<D>, wave: seq<Lines>, moment: nat, symbols: nat)
  {
    && moment <= |wave|
    && |Symbols(b.lines, b.stable, wave[..moment])| == symbols
    && Level(b.lines, wave[..moment]).data
  }

  // The master looks at each of eight bits once, at any time before its clock falls.
  predicate Looks<D>(b: Bus<D>, wave: seq<Lines>, start: nat, eight: seq<nat>)
  {
    |eight| == 8 && forall k :: 0 <= k < 8 ==> Released(b, wave, eight[k], start + k)
  }

  // And at each of n bytes; every ninth clock is for the acknowledgement.
  predicate LooksAtAll<D>(b: Bus<D>, wave: seq<Lines>, start: nat, moments: seq<seq<nat>>)
  {
    forall j :: 0 <= j < |moments| ==> Looks(b, wave, start + 9 * j, moments[j])
  }

  function SampledByte<D>(b: Bus<D>, wave: seq<Lines>, eight: seq<nat>): (v: bv8)
    requires b.Valid() && |eight| == 8 && forall k :: 0 <= k < 8 ==> eight[k] <= |wave|
  {
    Assemble(0, seq(8, k requires 0 <= k < 8 => Sample(Run(b, wave[..eight[k]]))))
  }

  // The bytes that a master puts together from the bits it sees.
  function SampledBytes<D>(b: Bus<D>, wave: seq<Lines>, start: nat, moments: seq<seq<nat>>): (data: seq<bv8>)
    requires b.Valid() && LooksAtAll(b, wave, start, moments)
    ensures |data| == |moments|
  {
    seq(|moments|, j requires 0 <= j < |moments| => SampledByte(b, wave, moments[j]))
  }

  lemma {:induction false} ReadsPrefix<D>(b: Bus<D>, m: nat, n: nat)
    requires b.Valid() && m <= n
    ensures Reads(b, m).1 == Reads(b, n).1[..m]
    decreases m
  {
    hide Invoke;
    if m > 0 {
      ReadsPrefix(Invoke(b, READ, 0).0, m - 1, n - 1);
    }
  }

  // The symbols up to a moment of a read that comes after anything.
  lemma SymbolsSoFar<D>(b: Bus<D>, before: seq<Symbol>, id: Id, ack: bool, levels: seq<bool>,
                        wave: seq<Lines>, moment: nat, clocks: nat)
    requires Symbols(b.lines, b.stable, wave) == before + ReadSymbols(id, ack, levels)
    requires Released(b, wave, moment, |before| + 10 + clocks)
    ensures clocks <= |levels|
    ensures Symbols(b.lines, b.stable, wave[..moment]) == before + ReadSymbols(id, ack, levels[..clocks])
  {
    hide ReadSymbols, Symbols;
    ReadSymbolsLength(id, ack, levels);
    SymbolsOfPrefix(b.lines, b.stable, wave, moment);
    ReadSymbolsPrefix(id, ack, levels, clocks);
    var all := Symbols(b.lines, b.stable, wave);
    assert all[..|before| + 10 + clocks] == before + ReadSymbols(id, ack, levels)[..10 + clocks];
  }

  lemma ReadSymbolsLength(id: Id, ack: bool, levels: seq<bool>)
    ensures |ReadSymbols(id, ack, levels)| == 10 + |levels|
  {
    hide Bits;
  }

  lemma ReadSymbolsPrefix(id: Id, ack: bool, levels: seq<bool>, clocks: nat)
    requires clocks <= |levels|
    ensures |ReadSymbols(id, ack, levels)| >= 10 + clocks
    ensures ReadSymbols(id, ack, levels)[..10 + clocks] == ReadSymbols(id, ack, levels[..clocks])
  {
    hide Bits;
  }

  lemma SampledBit<D>(b: Bus<D>, before: seq<Symbol>, id: Id, ack: bool, levels: seq<bool>,
                      wave: seq<Lines>, moment: nat, n: nat, k: nat)
    requires b.Valid() && id.bits < 0x80 && id in TakeAll(b, before).clients && k < 8
    requires Symbols(b.lines, b.stable, wave) == before + ReadSymbols(id, ack, levels)
    requires Released(b, wave, moment, |before| + 10 + (9 * n + k))
    ensures Sample(Run(b, wave[..moment]))
            == Bits(Reads(Select(Finish(TakeAll(b, before)), id, true), n + 1).1[n])[k]
  {
    hide TakeAll, Run, Finish, Select, Bits, Reads, Symbols, ReadSymbols;
    SymbolsSoFar(b, before, id, ack, levels, wave, moment, 9 * n + k);
    WaveIs(b, wave[..moment]);
    TakeAppend(b, before, ReadSymbols(id, ack, levels[..9 * n + k]));
    ReadTaken(TakeAll(b, before), id, ack, levels[..9 * n + k], n, k);
  }

  /** A master that looks at each bit of n bytes, whenever it likes and in whatever waveform, has
      the results of n READs; the read may come after anything. */
  lemma ReadBack<D>(b: Bus<D>, before: seq<Symbol>, id: Id, ack: bool, levels: seq<bool>,
                    wave: seq<Lines>, moments: seq<seq<nat>>)
    requires b.Valid() && id.bits < 0x80 && id in TakeAll(b, before).clients
    requires Symbols(b.lines, b.stable, wave) == before + ReadSymbols(id, ack, levels)
    requires LooksAtAll(b, wave, |before| + 10, moments)
    ensures SampledBytes(b, wave, |before| + 10, moments)
            == Reads(Select(Finish(TakeAll(b, before)), id, true), |moments|).1
  {
    hide TakeAll, Run, Finish, Select, Symbols, ReadSymbols, Reads, SampledByte;
    var sel := Select(Finish(TakeAll(b, before)), id, true);
    forall j | 0 <= j < |moments|
      ensures SampledByte(b, wave, moments[j]) == Reads(sel, |moments|).1[j]
    {
      ByteReadBack(b, before, id, ack, levels, wave, moments[j], j);
      ReadsPrefix(sel, j + 1, |moments|);
    }
  }

  lemma ByteReadBack<D>(b: Bus<D>, before: seq<Symbol>, id: Id, ack: bool, levels: seq<bool>,
                        wave: seq<Lines>, eight: seq<nat>, n: nat)
    requires b.Valid() && id.bits < 0x80 && id in TakeAll(b, before).clients
    requires Symbols(b.lines, b.stable, wave) == before + ReadSymbols(id, ack, levels)
    requires Looks(b, wave, |before| + 10 + 9 * n, eight)
    ensures SampledByte(b, wave, eight) == Reads(Select(Finish(TakeAll(b, before)), id, true), n + 1).1[n]
  {
    hide TakeAll, Run, Finish, Select, Bits, Symbols, ReadSymbols, Reads, Sample, Assemble;
    var v := Reads(Select(Finish(TakeAll(b, before)), id, true), n + 1).1[n];
    forall k | 0 <= k < 8
      ensures Sample(Run(b, wave[..eight[k]])) == Bits(v)[k]
    {
      SampledBit(b, before, id, ack, levels, wave, eight[k], n, k);
    }
    assert seq(8, k requires 0 <= k < 8 => Sample(Run(b, wave[..eight[k]]))) == Bits(v);
    AssembleBits(0, v);
  }

  // ---------- the peripheral's state ----------

  function ClientWrites<D>(c: Client<D>, data: seq<bv8>): (c': Client<D>)
    decreases |data|
  {
    if data == [] then c else ClientWrites(Answer(c, WRITE, data[0]).0, data[1..])
  }

  function ClientReads<D>(c: Client<D>, n: nat): (r: (Client<D>, seq<bv8>))
    ensures |r.1| == n
    decreases n
  {
    if n == 0 then (c, [])
    else
      var (c1, v) := Answer(c, READ, 0);
      var (c2, vs) := ClientReads(c1, n - 1);
      (c2, [v] + vs)
  }

  lemma {:induction false} WritesClient<D>(b: Bus<D>, data: seq<bv8>)
    requires b.Valid() && b.current.Some?
    ensures var r, id := Writes(b, data), b.current.value;
            r.current == b.current && id in r.clients && r.clients[id] == ClientWrites(b.clients[id], data)
    decreases |data|
  {
    if data != [] {
      WritesClient(Invoke(b, WRITE, data[0]).0, data[1..]);
    }
  }

  lemma {:induction false} ReadsClient<D>(b: Bus<D>, n: nat)
    requires b.Valid() && b.current.Some?
    ensures var (c, vs) := ClientReads(b.clients[b.current.value], n);
            var (r, results) := Reads(b, n);
            r.current == b.current && r.clients[b.current.value] == c && results == vs
    decreases n
  {
    if n > 0 {
      ReadsClient(Invoke(b, READ, 0).0, n - 1);
    }
  }

  lemma SelectClient<D>(b: Bus<D>, id: Id, reading: bool)
    requires b.Valid() && id in b.clients
    ensures var r := Select(b, id, reading);
            r.current == Some(id) && r.clients[id] == Answer(b.clients[id], START, 0).0
  {
  }

  lemma FinishClient<D>(b: Bus<D>, id: Id)
    requires b.Valid() && id in b.clients
    ensures var r := Finish(b);
            id in r.clients
            && r.clients[id] == if b.current == Some(id) then Answer(b.clients[id], END, 0).0 else b.clients[id]
  {
  }
}
