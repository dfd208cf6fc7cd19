/**
  What a master says on the two wires, whatever waveform it says it with (UM10204, sections
  3.1.4, 3.1.5 and 3.1.10), and what the bus makes of it: the wires refine a bus that hears
  bits and conditions, and that one a bus that moves whole bytes.
 */
module I2cWire {
  import opened Basics
  import opened I2cBus

  // ---------- bits of a byte, most significant first ----------

  function Bits(v: bv8): (bits: seq<bool>)
    ensures |bits| == 8
  {
    [v & 0x80 == 0x80, v & 0x40 == 0x40, v & 0x20 == 0x20, v & 0x10 == 0x10,
     v & 0x08 == 0x08, v & 0x04 == 0x04, v & 0x02 == 0x02, v & 0x01 == 0x01]
  }

  function Assemble(byte: bv8, bits: seq<bool>): (r: bv8)
    decreases |bits|
  {
    if bits == [] then byte else ShiftIn(Assemble(byte, bits[..|bits| - 1]), bits[|bits| - 1])
  }

  function Spent(v: bv8, k: nat): (r: bv8)
  {
    if k == 0 then v else ShiftIn(Spent(v, k - 1), false)
  }

  lemma AssembleUnrolled(byte: bv8, a: bool, b: bool, c: bool, d: bool, e: bool, f: bool, g: bool, h: bool)
    ensures Assemble(byte, [a, b, c, d, e, f, g])
            == ShiftIn(ShiftIn(ShiftIn(ShiftIn(ShiftIn(ShiftIn(ShiftIn(byte, a), b), c), d), e), f), g)
    ensures Assemble(byte, [a, b, c, d, e, f, g, h]) == ShiftIn(Assemble(byte, [a, b, c, d, e, f, g]), h)
  {
    hide ShiftIn, Assemble;
    assert [] + [a] == [a] && [a] + [b] == [a, b] && [a, b] + [c] == [a, b, c];
    assert [a, b, c] + [d] == [a, b, c, d] && [a, b, c, d] + [e] == [a, b, c, d, e];
    assert [a, b, c, d, e] + [f] == [a, b, c, d, e, f] && [a, b, c, d, e, f] + [g] == [a, b, c, d, e, f, g];
    assert [a, b, c, d, e, f, g] + [h] == [a, b, c, d, e, f, g, h];
    AssembleMore(byte, [], a);
    AssembleMore(byte, [a], b);
    AssembleMore(byte, [a, b], c);
    AssembleMore(byte, [a, b, c], d);
    AssembleMore(byte, [a, b, c, d], e);
    AssembleMore(byte, [a, b, c, d, e], f);
    AssembleMore(byte, [a, b, c, d, e, f], g);
    AssembleMore(byte, [a, b, c, d, e, f, g], h);
  }

  lemma AssembleMore(byte: bv8, bits: seq<bool>, bit: bool)
    ensures Assemble(byte, bits + [bit]) == ShiftIn(Assemble(byte, bits), bit)
    ensures Assemble(byte, []) == byte
  {
    hide ShiftIn;
    assert (bits + [bit])[..|bits|] == bits;
  }

  lemma ShiftedThrough(byte: bv8, v: bv8)
    ensures var b := Bits(v);
            var seven := ShiftIn(ShiftIn(ShiftIn(ShiftIn(ShiftIn(ShiftIn(ShiftIn(byte, b[0]), b[1]), b[2]), b[3]), b[4]), b[5]), b[6]);
            ShiftIn(seven, b[7]) == v && (byte == 0 ==> seven == v >> 1)
  {
  }

  // Eight bits shifted in push out whatever was there; seven into a clear byte are an address.
  lemma AssembleBits(byte: bv8, v: bv8)
    ensures Assemble(byte, Bits(v)) == v
    ensures byte == 0 ==> Assemble(byte, Bits(v)[..7]) == v >> 1
  {
    hide ShiftIn, Assemble;
    var b := Bits(v);
    AssembleUnrolled(byte, b[0], b[1], b[2], b[3], b[4], b[5], b[6], b[7]);
    ShiftedThrough(byte, v);
    assert b == [b[0], b[1], b[2], b[3], b[4], b[5], b[6], b[7]];
    assert b[..7] == [b[0], b[1], b[2], b[3], b[4], b[5], b[6]];
  }

  // Shifting out shows the bits in order.
  lemma SpentBits(v: bv8)
    ensures forall k :: 0 <= k < 8 ==> TopBit(Spent(v, k)) == Bits(v)[k]
  {
    hide ShiftIn, TopBit, Bits, Spent;
    SpentSoFar(v);
    SpentShows(v);
  }

  lemma SpentSoFar(v: bv8)
    ensures Spent(v, 0) == v && Spent(v, 1) == ShiftIn(v, false) && Spent(v, 2) == ShiftIn(Spent(v, 1), false)
    ensures Spent(v, 3) == ShiftIn(Spent(v, 2), false) && Spent(v, 4) == ShiftIn(Spent(v, 3), false)
    ensures Spent(v, 5) == ShiftIn(Spent(v, 4), false) && Spent(v, 6) == ShiftIn(Spent(v, 5), false)
    ensures Spent(v, 7) == ShiftIn(Spent(v, 6), false)
  {
    hide ShiftIn;
    assert Spent(v, 0) == v;
  }

  lemma SpentShows(v: bv8)
    ensures var v1 := ShiftIn(v, false);
            var v2 := ShiftIn(v1, false);
            var v3 := ShiftIn(v2, false);
            var v4 := ShiftIn(v3, false);
            var v5 := ShiftIn(v4, false);
            var v6 := ShiftIn(v5, false);
            [TopBit(v), TopBit(v1), TopBit(v2), TopBit(v3), TopBit(v4), TopBit(v5), TopBit(v6), TopBit(ShiftIn(v6, false))]
            == Bits(v)
  {
  }

  // ---------- what the wires say ----------

  /** What a falling clock closes: a bit, if the data line was steady while the clock was high,
      and otherwise the condition that the last change of it made. */
  datatype Symbol = Bit(level: bool) | StartCondition | StopCondition

  function Closed(steady: bool, level: bool): (s: Symbol)
  {
    if steady then Bit(level) else if level then StopCondition else StartCondition
  }

  // Whether the data line is still steady once both lines have been set.
  predicate SteadyAfter(from: Lines, steady: bool, to: Lines)
  {
    (from.clk && !to.clk) || (steady && !(to.clk && from.data != to.data))
  }

  // What one setting of the lines closes, if the clock falls with it.
  function ClosedBy(from: Lines, steady: bool, to: Lines): (s: seq<Symbol>)
  {
    if from.clk && !to.clk then [Closed(steady, to.data)] else []
  }

  /** The symbols in any sequence of levels.  Levels may repeat, data may change as often as it
      likes while the clock is low, and a high clock may last any number of writes; of both
      lines set at once, what counts is where they end up. */
  function Symbols(from: Lines, steady: bool, wave: seq<Lines>): (s: seq<Symbol>)
    decreases |wave|
  {
    if wave == [] then []
    else
      ClosedBy(from, steady, wave[0]) + Symbols(wave[0], SteadyAfter(from, steady, wave[0]), wave[1..])
  }

  predicate Steady(from: Lines, steady: bool, wave: seq<Lines>)
    decreases |wave|
  {
    if wave == [] then steady else Steady(wave[0], SteadyAfter(from, steady, wave[0]), wave[1..])
  }

  function Level(from: Lines, wave: seq<Lines>): (lines: Lines)
  {
    if wave == [] then from else wave[|wave| - 1]
  }

  // The symbols of a wave that stops early are those it has got to.
  lemma {:induction false} SymbolsOfPrefix(from: Lines, steady: bool, wave: seq<Lines>, i: nat)
    requires i <= |wave|
    ensures Symbols(from, steady, wave[..i]) <= Symbols(from, steady, wave)
    decreases |wave|
  {
    if i > 0 {
      assert wave[..i][1..] == wave[1..][..i - 1];
      SymbolsOfPrefix(wave[0], SteadyAfter(from, steady, wave[0]), wave[1..], i - 1);
    }
  }

  lemma {:induction false} SymbolsAppend(from: Lines, steady: bool, v: seq<Lines>, w: seq<Lines>)
    ensures Symbols(from, steady, v + w)
            == Symbols(from, steady, v) + Symbols(Level(from, v), Steady(from, steady, v), w)
    decreases |v|
  {
    hide SteadyAfter, ClosedBy;
    if v == [] {
      assert v + w == w;
    } else {
      assert (v + w)[1..] == v[1..] + w;
      SymbolsAppend(v[0], SteadyAfter(from, steady, v[0]), v[1..], w);
    }
  }

  // One way of saying a symbol, from a low clock to a low clock.
  function Pulse(s: Symbol): (wave: seq<Lines>)
  {
    match s
    case Bit(x) => [Lines(false, x), Lines(true, x), Lines(false, x)]
    case StartCondition => [Lines(false, true), Lines(true, true), Lines(true, false), Lines(false, false)]
    case StopCondition => [Lines(false, false), Lines(true, false), Lines(true, true), Lines(false, true)]
  }

  function WaveOf(ss: seq<Symbol>): (wave: seq<Lines>)
    decreases |ss|
  {
    if ss == [] then [] else Pulse(ss[0]) + WaveOf(ss[1..])
  }

  lemma {:induction false} WaveSays(from: Lines, ss: seq<Symbol>)
    requires !from.clk
    ensures Symbols(from, true, WaveOf(ss)) == ss
    decreases |ss|
  {
    if ss != [] {
      PulseSays(from, ss[0]);
      hide Pulse;
      SymbolsAppend(from, true, Pulse(ss[0]), WaveOf(ss[1..]));
      WaveSays(Level(from, Pulse(ss[0])), ss[1..]);
    }
  }

  lemma SymbolsFirst(from: Lines, steady: bool, to: Lines, rest: seq<Lines>)
    ensures Symbols(from, steady, [to] + rest)
            == ClosedBy(from, steady, to) + Symbols(to, SteadyAfter(from, steady, to), rest)
    ensures Steady(from, steady, [to] + rest) == Steady(to, SteadyAfter(from, steady, to), rest)
  {
    assert ([to] + rest)[1..] == rest;
  }

  lemma PulseSays(from: Lines, s: Symbol)
    requires !from.clk
    ensures Symbols(from, true, Pulse(s)) == [s] && Steady(from, true, Pulse(s)) && !Level(from, Pulse(s)).clk
  {
    hide Symbols, Steady;
    var w := Pulse(s);
    assert w == [w[0]] + ([w[1]] + ([w[2]] + w[3..]));
    SymbolsFirst(from, true, w[0], [w[1]] + ([w[2]] + w[3..]));
    SymbolsFirst(w[0], true, w[1], [w[2]] + w[3..]);
    SymbolsFirst(w[1], true, w[2], w[3..]);
    if s.Bit? {
      SymbolsNone(w[2], true);
    } else {
      assert w[3..] == [w[3]] + [];
      SymbolsFirst(w[2], false, w[3], []);
      SymbolsNone(w[3], true);
    }
  }

  lemma SymbolsNone(from: Lines, steady: bool)
    ensures Symbols(from, steady, []) == [] && Steady(from, steady, []) == steady
  {
  }

  /** Every transfer can be said, starting from an idle bus. */
  lemma IdleWaveSays(ss: seq<Symbol>)
    ensures Symbols(HIGH, true, [Lines(true, false), Lines(false, false)] + WaveOf(ss)) == [StartCondition] + ss
  {
    var up, down := Lines(true, false), Lines(false, false);
    assert [up, down] + WaveOf(ss) == [up] + ([down] + WaveOf(ss));
    SymbolsFirst(HIGH, true, up, [down] + WaveOf(ss));
    SymbolsFirst(up, false, down, WaveOf(ss));
    WaveSays(down, ss);
  }

  // ---------- what the bus makes of it ----------

  // A bus that hears symbols instead of levels.
  function Take<D>(b: Bus<D>, s: Symbol): (b': Bus<D>)
    requires b.Valid()
    ensures b'.Valid()
  {
    match s
    case Bit(level) => DataBit(b, level)
    case StartCondition => Begin(b)
    case StopCondition => Finish(b)
  }

  function TakeAll<D>(b: Bus<D>, ss: seq<Symbol>): (b': Bus<D>)
    requires b.Valid()
    ensures b'.Valid()
    decreases |ss|
  {
    if ss == [] then b else TakeAll(Take(b, ss[0]), ss[1..])
  }

  lemma {:induction false} TakeAppend<D>(b: Bus<D>, s: seq<Symbol>, t: seq<Symbol>)
    requires b.Valid()
    ensures TakeAll(b, s + t) == TakeAll(TakeAll(b, s), t)
    decreases |s|
  {
    hide Take;
    if s == [] {
      assert s + t == t;
    } else {
      TakeAppend(Take(b, s[0]), s[1..], t);
      assert (s + t)[1..] == s[1..] + t;
    }
  }

  lemma TakeOne<D>(b: Bus<D>, s: Symbol)
    requires b.Valid()
    ensures TakeAll(b, [s]) == Take(b, s)
  {
    hide Take;
    assert TakeAll(Take(b, s), []) == Take(b, s);
  }

  // The wires and the output latch play no part in talking to a peripheral.
  lemma InvokeAside<D>(b: Bus<D>, lines: Lines, output: bool, stable: bool, op: Op, data: bv8)
    requires b.Valid()
    ensures var (r, x) := Invoke(b, op, data);
            Invoke(b.(lines := lines, output := output, stable := stable), op, data)
            == (r.(lines := lines, output := output, stable := stable), x)
  {
  }

  lemma ByteDoneAside<D>(b: Bus<D>, lines: Lines, output: bool, stable: bool)
    requires b.Valid()
    ensures ByteDone(b.(lines := lines, output := output, stable := stable))
            == ByteDone(b).(lines := lines, output := output, stable := stable)
  {
    hide Invoke;
    var b1 := b.(state := if b.byte & 1 == 1 then DATA_OUT else DATA_IN,
                 current := if b.devid in b.clients then Some(b.devid) else None);
    InvokeAside(b1, lines, output, stable, START, 0);
    InvokeAside(b, lines, output, stable, WRITE, b.byte);
  }

  lemma EighthBitAside<D>(b: Bus<D>, lines: Lines, output: bool, stable: bool)
    requires b.Valid()
    ensures EighthBit(b.(lines := lines, output := output, stable := stable)) == EighthBit(b).(lines := lines, stable := stable)
  {
    hide Invoke, ByteDone;
    ByteDoneAside(b, lines, output, stable);
    InvokeAside(ByteDone(b), lines, output, stable, READ, 0);
  }

  lemma InvokeKeeps<D>(b: Bus<D>, op: Op, data: bv8)
    requires b.Valid()
    ensures var r := Invoke(b, op, data).0; r == b.(clients := r.clients, calls := r.calls)
  {
  }

  lemma CollectAside<D>(b: Bus<D>, lines: Lines, stable: bool, data: bool)
    requires b.Valid()
    ensures Collect(b.(lines := lines, stable := stable), data) == Collect(b, data).(lines := lines, stable := stable)
    ensures var c := Collect(b, data);
            c.state == b.state && c.bitcnt == b.bitcnt + 1 && c.current == b.current && c.clients == b.clients
  {
    hide ShiftIn, TopBit;
  }

  lemma DataBitAside<D>(b: Bus<D>, lines: Lines, stable: bool, data: bool)
    requires b.Valid()
    ensures DataBit(b.(lines := lines, stable := stable), data) == DataBit(b, data).(lines := lines, stable := stable)
  {
    hide Collect, EighthBit;
    CollectAside(b, lines, stable, data);
    var b1 := Collect(b, data);
    if b1.bitcnt == 8 {
      EighthBitAside(b1, lines, b1.output, stable);
    }
  }

  lemma FinishAside<D>(b: Bus<D>, lines: Lines, stable: bool)
    requires b.Valid()
    ensures Finish(b.(lines := lines, stable := stable)) == Finish(b).(lines := lines, stable := stable)
    ensures Begin(b.(lines := lines, stable := stable)) == Begin(b).(lines := lines, stable := stable)
  {
  }

  lemma TakeAside<D>(b: Bus<D>, s: Symbol, lines: Lines, stable: bool)
    requires b.Valid()
    ensures Take(b.(lines := lines, stable := stable), s) == Take(b, s).(lines := lines, stable := stable)
  {
    hide DataBit, Finish, Begin;
    match s
    case Bit(level) => DataBitAside(b, lines, stable, level);
    case StartCondition => FinishAside(b, lines, stable);
    case StopCondition => FinishAside(b, lines, stable);
  }

  lemma {:induction false} TakeAllAside<D>(b: Bus<D>, ss: seq<Symbol>, lines: Lines, stable: bool)
    requires b.Valid()
    ensures TakeAll(b.(lines := lines, stable := stable), ss) == TakeAll(b, ss).(lines := lines, stable := stable)
    decreases |ss|
  {
    hide Take;
    if ss != [] {
      TakeAside(b, ss[0], lines, stable);
      TakeAllAside(Take(b, ss[0]), ss[1..], lines, stable);
    }
  }

  lemma WriteIs<D>(b: Bus<D>, to: Lines)
    requires b.Valid()
    ensures Write(b, to)
            == (if b.lines.clk && !to.clk then Take(b, Closed(b.stable, to.data)) else b)
                 .(lines := to, stable := SteadyAfter(b.lines, b.stable, to))
  {
    hide DataBit, Finish, Begin;
    TakeAside(b, Closed(b.stable, to.data), b.lines, b.stable);
    assert b == b.(lines := b.lines, stable := b.stable);
  }

  /** Every wave does what its symbols do: nothing else about it matters. */
  lemma {:induction false} WaveIs<D>(b: Bus<D>, wave: seq<Lines>)
    requires b.Valid()
    ensures Run(b, wave)
            == TakeAll(b, Symbols(b.lines, b.stable, wave))
                 .(lines := Level(b.lines, wave), stable := Steady(b.lines, b.stable, wave))
    decreases |wave|
  {
    hide Write, Take, SteadyAfter;
    if wave != [] {
      WriteIs(b, wave[0]);
      var b1 := Write(b, wave[0]);
      WaveIs(b1, wave[1..]);
      var b0 := if b.lines.clk && !wave[0].clk then Take(b, Closed(b.stable, wave[0].data)) else b;
      var rest := Symbols(b1.lines, b1.stable, wave[1..]);
      TakeAllAside(b0, rest, b1.lines, b1.stable);
      if b.lines.clk && !wave[0].clk {
        var s := Closed(b.stable, wave[0].data);
        assert ([s] + rest)[1..] == rest;
      } else {
        assert [] + rest == rest;
      }
    }
  }

  // ---------- bytes in symbols ----------

  function BitSymbols(bits: seq<bool>): (s: seq<Symbol>)
  {
    seq(|bits|, i requires 0 <= i < |bits| => Bit(bits[i]))
  }

  // Eight bits and the acknowledge clock, on which the line may be at either level.
  function ByteSymbols(v: bv8, ack: bool): (s: seq<Symbol>)
  {
    BitSymbols(Bits(v)) + [Bit(ack)]
  }

  function BytesSymbols(data: seq<bv8>, acks: seq<bool>): (s: seq<Symbol>)
    requires |acks| == |data|
    decreases |data|
  {
    if data == [] then [] else ByteSymbols(data[0], acks[0]) + BytesSymbols(data[1..], acks[1..])
  }

  // One more bit is one more DataBit.
  lemma BitSymbolsMore<D>(b: Bus<D>, bits: seq<bool>)
    requires b.Valid() && bits != []
    ensures var n := |bits| - 1;
            TakeAll(b, BitSymbols(bits)) == DataBit(TakeAll(b, BitSymbols(bits[..n])), bits[n])
  {
    hide DataBit;
    var n := |bits| - 1;
    assert BitSymbols(bits) == BitSymbols(bits[..n]) + [Bit(bits[n])];
    TakeAppend(b, BitSymbols(bits[..n]), [Bit(bits[n])]);
    TakeOne(TakeAll(b, BitSymbols(bits[..n])), Bit(bits[n]));
  }

  lemma TakeNone<D>(b: Bus<D>)
    requires b.Valid()
    ensures TakeAll(b, []) == b
  {
  }

  // Up to seven bits are only collected.
  lemma {:induction false} BitsCollect<D>(b: Bus<D>, bits: seq<bool>)
    requires b.Valid() && b.state != DATA_OUT && b.bitcnt == 0 && |bits| <= 7
    ensures var r := TakeAll(b, BitSymbols(bits));
            && r == b.(byte := Assemble(b.byte, bits), bitcnt := |bits|, output := r.output, devid := r.devid)
            && r.devid == if b.state == ID && |bits| == 7 then Id(Assemble(b.byte, bits)) else b.devid
    decreases |bits|
  {
    hide ShiftIn, TopBit, EighthBit, TakeAll;
    if bits != [] {
      BitsCollect(b, bits[..|bits| - 1]);
      BitSymbolsMore(b, bits);
    } else {
      TakeNone(b);
      assert BitSymbols(bits) == [];
    }
  }

  // The eighth completes the byte.
  lemma ByteCompletes<D>(b: Bus<D>, v: bv8)
    requires b.Valid() && (b.state == DATA_IN || (b.state == ID && b.byte == 0)) && b.bitcnt == 0
    ensures TakeAll(b, BitSymbols(Bits(v)))
            == EighthBit(b.(byte := v, bitcnt := 8, devid := if b.state == ID then Id(v >> 1) else b.devid))
  {
    hide Assemble, EighthBit, Bits, TopBit, TakeAll;
    var init := Bits(v)[..7];
    BitsCollect(b, init);
    AssembleBits(b.byte, v);
    var b7 := TakeAll(b, BitSymbols(init));
    BitSymbolsMore(b, Bits(v));
    AssembleLast(b.byte, Bits(v));
    var full := b.(byte := v, bitcnt := 8, devid := b7.devid);
    EighthBitAside(full, b.lines, TopBit(b7.byte), b.stable);
    EighthBitAside(full, b.lines, b.output, b.stable);
    assert full == full.(lines := b.lines, output := b.output, stable := b.stable);
  }

  lemma AssembleLast(byte: bv8, bits: seq<bool>)
    requires |bits| == 8
    ensures Assemble(byte, bits) == ShiftIn(Assemble(byte, bits[..7]), bits[7])
  {
  }

  // The ninth clock brings the bus back to a byte boundary, the next bit out on the line.
  lemma AckBit<D>(b: Bus<D>, ack: bool)
    requires b.Valid() && b.bitcnt == 8
    ensures var r := Take(b, Bit(ack));
            && r == b.(byte := r.byte, output := TopBit(b.byte), bitcnt := 0)
            && (b.state == DATA_OUT ==> r.byte == ShiftIn(b.byte, false))
  {
    hide ShiftIn, TopBit, EighthBit;
  }

  lemma ByteTaken<D>(b: Bus<D>, v: bv8, ack: bool)
    requires b.Valid()
    ensures TakeAll(b, ByteSymbols(v, ack)) == Take(TakeAll(b, BitSymbols(Bits(v))), Bit(ack))
  {
    hide TakeAll, Take, BitSymbols, Bits;
    TakeAppend(b, BitSymbols(Bits(v)), [Bit(ack)]);
    TakeOne(TakeAll(b, BitSymbols(Bits(v))), Bit(ack));
  }

  // ---------- the byte level ----------

  // Ready for the first bit of a byte.
  predicate AtByte<D>(b: Bus<D>)
  {
    b.Valid() && b.bitcnt == 0
  }

  // The same peripherals in the same states, the same history, the same one selected.
  ghost predicate SameBytes<D>(b: Bus<D>, c: Bus<D>)
  {
    b.clients == c.clients && b.calls == c.calls && b.current == c.current
  }

  // The reference: a bus that hands whole bytes to the selected peripheral.
  function Writes<D>(b: Bus<D>, data: seq<bv8>): (b': Bus<D>)
    requires b.Valid()
    ensures b'.Valid()
    decreases |data|
  {
    if data == [] then b else Writes(Invoke(b, WRITE, data[0]).0, data[1..])
  }

  function Reads<D>(b: Bus<D>, n: nat): (r: (Bus<D>, seq<bv8>))
    requires b.Valid()
    ensures r.0.Valid() && |r.1| == n
    decreases n
  {
    if n == 0 then (b, [])
    else
      var (b1, v) := Invoke(b, READ, 0);
      var (b2, vs) := Reads(b1, n - 1);
      (b2, [v] + vs)
  }

  // Selecting a peripheral for writing or reading.
  function Select<D>(b: Bus<D>, id: Id, reading: bool): (b': Bus<D>)
    requires b.Valid()
    ensures b'.Valid()
  {
    Invoke(b.(state := if reading then DATA_OUT else DATA_IN,
              current := if id in b.clients then Some(id) else None), START, 0).0
  }

  lemma InvokeSame<D>(b: Bus<D>, c: Bus<D>, op: Op, data: bv8)
    requires b.Valid() && c.Valid() && SameBytes(b, c)
    ensures var (b', x) := Invoke(b, op, data);
            var (c', y) := Invoke(c, op, data);
            SameBytes(b', c') && x == y && b'.state == b.state
  {
  }

  lemma {:induction false} WritesSame<D>(b: Bus<D>, c: Bus<D>, data: seq<bv8>)
    requires b.Valid() && c.Valid() && SameBytes(b, c)
    ensures SameBytes(Writes(b, data), Writes(c, data))
    decreases |data|
  {
    hide Invoke;
    if data != [] {
      InvokeSame(b, c, WRITE, data[0]);
      WritesSame(Invoke(b, WRITE, data[0]).0, Invoke(c, WRITE, data[0]).0, data[1..]);
    }
  }

  lemma {:induction false} ReadsSame<D>(b: Bus<D>, c: Bus<D>, n: nat)
    requires b.Valid() && c.Valid() && SameBytes(b, c)
    ensures SameBytes(Reads(b, n).0, Reads(c, n).0) && Reads(b, n).1 == Reads(c, n).1
    decreases n
  {
    hide Invoke;
    if n > 0 {
      InvokeSame(b, c, READ, 0);
      ReadsSame(Invoke(b, READ, 0).0, Invoke(c, READ, 0).0, n - 1);
    }
  }

  // ---------- writing ----------

  // A byte heard while data goes in is one WRITE of that byte.
  lemma ByteWrites<D>(b: Bus<D>, v: bv8, ack: bool)
    requires AtByte(b) && b.state == DATA_IN
    ensures var r := TakeAll(b, ByteSymbols(v, ack));
            AtByte(r) && r.state == DATA_IN && SameBytes(r, Invoke(b, WRITE, v).0)
  {
    hide Invoke, Bits, ShiftIn, TopBit, BitSymbols, TakeAll, Take;
    ByteCompletes(b, v);
    var full := b.(byte := v, bitcnt := 8);
    InvokeSame(full, b, WRITE, v);
    InvokeKeeps(full, WRITE, v);
    ByteTaken(b, v, ack);
    AckBit(TakeAll(b, BitSymbols(Bits(v))), ack);
  }

  lemma {:induction false} BytesWrite<D>(b: Bus<D>, data: seq<bv8>, acks: seq<bool>)
    requires AtByte(b) && b.state == DATA_IN && |acks| == |data|
    ensures var r := TakeAll(b, BytesSymbols(data, acks));
            AtByte(r) && r.state == DATA_IN && SameBytes(r, Writes(b, data))
    decreases |data|
  {
    hide Invoke, ByteSymbols, TakeAll;
    if data == [] {
      TakeNone(b);
    } else {
      ByteWrites(b, data[0], acks[0]);
      var b1 := TakeAll(b, ByteSymbols(data[0], acks[0]));
      TakeAppend(b, ByteSymbols(data[0], acks[0]), BytesSymbols(data[1..], acks[1..]));
      BytesWrite(b1, data[1..], acks[1..]);
      WritesSame(b1, Invoke(b, WRITE, data[0]).0, data[1..]);
    }
  }

  // ---------- addressing ----------

  function Address(id: Id, reading: bool): (v: bv8)
  {
    ShiftIn(id.bits, reading)
  }

  lemma AddressParts(id: Id, reading: bool)
    requires id.bits < 0x80
    ensures Id(Address(id, reading) >> 1) == id
    ensures Address(id, reading) & 1 == 1 <==> reading
  {
  }

  // A start condition and the address byte.
  function AddressSymbols(id: Id, reading: bool, ack: bool): (s: seq<Symbol>)
  {
    [StartCondition] + ByteSymbols(Address(id, reading), ack)
  }

  // The bus as the last bit of the address byte completes it.
  function Addressed<D>(b: Bus<D>, id: Id, reading: bool): (b': Bus<D>)
    requires b.Valid()
    ensures b'.Valid() && b'.state == ID
  {
    FinishIdle(b);
    Finish(b).(state := ID, byte := Address(id, reading), bitcnt := 8, devid := id)
  }

  lemma FinishIdle<D>(b: Bus<D>)
    requires b.Valid()
    ensures var r := Finish(b);
            r.current == None && r.state == IDLE && r.bitcnt == 0 && r.byte == 0 && r.clients.Keys == b.clients.Keys
  {
  }

  lemma AddressTaken<D>(b: Bus<D>, id: Id, reading: bool, ack: bool)
    requires b.Valid() && id.bits < 0x80
    ensures TakeAll(b, AddressSymbols(id, reading, ack)) == Take(EighthBit(Addressed(b, id, reading)), Bit(ack))
  {
    hide Invoke, Bits, BitSymbols, ByteSymbols, TakeAll, Finish, Address, EighthBit, DataBit;
    var v := Address(id, reading);
    TakeAppend(b, [StartCondition], ByteSymbols(v, ack));
    TakeOne(b, StartCondition);
    FinishIdle(b);
    AddressParts(id, reading);
    ByteTaken(Begin(b), v, ack);
    ByteCompletes(Begin(b), v);
  }

  // What the eighth bit of an address does: select, and fetch ahead when reading.
  lemma AddressSelects<D>(b: Bus<D>, id: Id, reading: bool)
    requires b.Valid() && id.bits < 0x80
    ensures var r := EighthBit(Addressed(b, id, reading));
            var sel := Select(Finish(b), id, reading);
            && r.bitcnt == 8 && r.state == (if reading then DATA_OUT else DATA_IN)
            && (!reading ==> SameBytes(r, sel))
            && (reading ==> SameBytes(r, Invoke(sel, READ, 0).0) && r.byte == Invoke(sel, READ, 0).1)
  {
    hide Invoke, Finish, Address;
    AddressParts(id, reading);
    var full := Addressed(b, id, reading);
    var sel := full.(state := if reading then DATA_OUT else DATA_IN,
                     current := if id in full.clients then Some(id) else None);
    var ref := Finish(b).(state := sel.state, current := sel.current);
    InvokeKeeps(sel, START, 0);
    InvokeKeeps(ref, START, 0);
    InvokeSame(sel, ref, START, 0);
    InvokeKeeps(Invoke(sel, START, 0).0, READ, 0);
    InvokeSame(Invoke(sel, START, 0).0, Invoke(ref, START, 0).0, READ, 0);
  }

  // Start and the address byte: END to the previous peripheral, START to the addressed one.
  lemma AddressedForWriting<D>(b: Bus<D>, id: Id, ack: bool)
    requires b.Valid() && id.bits < 0x80
    ensures var r := TakeAll(b, AddressSymbols(id, false, ack));
            AtByte(r) && r.state == DATA_IN && SameBytes(r, Select(Finish(b), id, false))
  {
    hide TakeAll, AddressSymbols, EighthBit, Finish, Select, Addressed;
    AddressTaken(b, id, false, ack);
    AddressSelects(b, id, false);
    AckBit(EighthBit(Addressed(b, id, false)), ack);
  }

  // ---------- reading ----------

  // The selected peripheral's byte v has been fetched and its first bit is on the line.
  predicate Loaded<D>(b: Bus<D>, v: bv8)
  {
    && AtByte(b) && b.state == DATA_OUT && b.current.Some?
    && b.output == TopBit(v) && b.byte == ShiftIn(v, false)
  }

  // Start and the address byte of a read: START, and the first READ already made.
  lemma AddressedForReading<D>(b: Bus<D>, id: Id, ack: bool)
    requires b.Valid() && id.bits < 0x80 && id in b.clients
    ensures var r := TakeAll(b, AddressSymbols(id, true, ack));
            var (first, v) := Invoke(Select(Finish(b), id, true), READ, 0);
            Loaded(r, v) && SameBytes(r, first)
  {
    hide TakeAll, AddressSymbols, EighthBit, Addressed, Invoke, ShiftIn, TopBit, Finish;
    AddressTaken(b, id, true, ack);
    AddressSelects(b, id, true);
    FinishIdle(b);
    AckBit(EighthBit(Addressed(b, id, true)), ack);
    var sel := Finish(b).(state := DATA_OUT, current := Some(id));
    InvokeKeeps(sel, START, 0);
    InvokeKeeps(Invoke(sel, START, 0).0, READ, 0);
  }

  // A clock with the next bit of the byte on the line, whatever the master puts there.
  lemma {:induction false} BitsShow<D>(b: Bus<D>, v: bv8, levels: seq<bool>)
    requires Loaded(b, v) && |levels| <= 7
    ensures TakeAll(b, BitSymbols(levels))
            == b.(byte := Spent(v, |levels| + 1), output := Bits(v)[|levels|], bitcnt := |levels|)
    decreases |levels|
  {
    hide ShiftIn, TopBit, EighthBit, Bits, TakeAll;
    SpentBits(v);
    SpentSoFar(v);
    if levels != [] {
      BitsShow(b, v, levels[..|levels| - 1]);
      BitSymbolsMore(b, levels);
    } else {
      TakeNone(b);
      assert BitSymbols(levels) == [];
    }
  }

  // The eighth clock fetches the next byte: one READ.  Its acknowledgement is the master's.
  lemma EightClocks<D>(b: Bus<D>, v: bv8, levels: seq<bool>)
    requires Loaded(b, v) && |levels| == 8
    ensures var r := TakeAll(b, BitSymbols(levels));
            var (next, w) := Invoke(b, READ, 0);
            && SameBytes(r, next) && r.Valid() && r.output
            && r.bitcnt == 8 && r.byte == w && r.state == DATA_OUT && r.current.Some?
  {
    hide Invoke, ShiftIn, TopBit, Bits, TakeAll, Spent;
    var b7 := TakeAll(b, BitSymbols(levels[..7]));
    BitsShow(b, v, levels[..7]);
    BitSymbolsMore(b, levels);
    var full := b7.(output := TopBit(b7.byte), byte := ShiftIn(b7.byte, false), bitcnt := 8);
    InvokeSame(full, b, READ, 0);
    InvokeKeeps(full, READ, 0);
  }

  // The ninth puts its first bit on the line.
  lemma NineClocks<D>(b: Bus<D>, v: bv8, levels: seq<bool>)
    requires Loaded(b, v) && |levels| == 9
    ensures var (next, w) := Invoke(b, READ, 0);
            Loaded(TakeAll(b, BitSymbols(levels)), w) && SameBytes(TakeAll(b, BitSymbols(levels)), next)
  {
    hide Invoke, ShiftIn, TopBit, TakeAll;
    EightClocks(b, v, levels[..8]);
    BitSymbolsMore(b, levels);
    AckBit(TakeAll(b, BitSymbols(levels[..8])), levels[8]);
  }

  // Within one byte: bit k of it is on the line after k clocks, the master's own ninth excepted.
  lemma ByteShows<D>(b: Bus<D>, v: bv8, levels: seq<bool>)
    requires b.Valid() && Loaded(b, v) && |levels| < 9
    ensures Shown(b, v, 0, |levels|, TakeAll(b, BitSymbols(levels)))
  {
    hide Invoke, ShiftIn, TopBit, Bits, TakeAll, Spent, BitSymbols;
    ReadsFew(b);
    if |levels| < 8 {
      BitsShow(b, v, levels);
      if levels == [] {
        NoBits();
        TakeNone(b);
      }
    } else {
      EightClocks(b, v, levels);
    }
  }

  lemma NoBits()
    ensures BitSymbols([]) == []
  {
  }

  lemma BitSymbolsAppend(x: seq<bool>, y: seq<bool>)
    ensures BitSymbols(x + y) == BitSymbols(x) + BitSymbols(y)
  {
  }

  // READs made n bytes and k clocks on: the bus fetches the next byte at the eighth.
  function Fetched(n: nat, k: nat): (m: nat)
  {
    if k < 8 then n else n + 1
  }

  // From b, with v loaded, n bytes and k clocks have led to r.
  ghost predicate Shown<D>(b: Bus<D>, v: bv8, n: nat, k: nat, r: Bus<D>)
    requires b.Valid() && k < 9
  {
    var seen := ([v] + Reads(b, n).1)[n];
    && r.output == (if k < 8 then Bits(seen)[k] else true)
    && (k == 0 ==> Loaded(r, seen))
    && SameBytes(r, Reads(b, Fetched(n, k)).0)
  }

  /** Clocks keep the bytes of consecutive READs coming, bit by bit, one fetched ahead, whatever
      levels the master drives meanwhile. */
  lemma {:induction false} BytesShow<D>(b: Bus<D>, v: bv8, levels: seq<bool>, n: nat, k: nat)
    requires b.Valid() && Loaded(b, v) && k < 9 && |levels| == 9 * n + k
    ensures Shown(b, v, n, k, TakeAll(b, BitSymbols(levels)))
    decreases n
  {
    hide Invoke, TakeAll, BitSymbols, Shown, AtByte;
    if n == 0 {
      ByteShows(b, v, levels);
    } else {
      assert levels == levels[..9] + levels[9..];
      BitSymbolsAppend(levels[..9], levels[9..]);
      TakeAppend(b, BitSymbols(levels[..9]), BitSymbols(levels[9..]));
      NineClocks(b, v, levels[..9]);
      var b1 := TakeAll(b, BitSymbols(levels[..9]));
      BytesShow(b1, Invoke(b, READ, 0).1, levels[9..], n - 1, k);
      ShownLater(b, v, n, k, b1, TakeAll(b, BitSymbols(levels)));
    }
  }

  lemma ShownLater<D>(b: Bus<D>, v: bv8, n: nat, k: nat, b1: Bus<D>, r: Bus<D>)
    requires b.Valid() && b1.Valid() && n > 0 && k < 9 && SameBytes(b1, Invoke(b, READ, 0).0)
    requires Shown(b1, Invoke(b, READ, 0).1, n - 1, k, r)
    ensures Shown(b, v, n, k, r)
  {
    hide Invoke, Bits, Loaded, Reads;
    ReadsSame(b1, Invoke(b, READ, 0).0, n - 1);
    ReadsSame(b1, Invoke(b, READ, 0).0, Fetched(n - 1, k));
    FirstRead(b, n - 1);
    FirstRead(b, Fetched(n - 1, k));
    SecondOn(v, Invoke(b, READ, 0).1, Reads(Invoke(b, READ, 0).0, n - 1).1);
  }

  lemma ReadsFew<D>(b: Bus<D>)
    requires b.Valid()
    ensures Reads(b, 0) == (b, []) && Reads(b, 1).0 == Invoke(b, READ, 0).0
  {
    hide Invoke;
  }

  lemma FirstRead<D>(b: Bus<D>, n: nat)
    requires b.Valid()
    ensures var (next, v) := Invoke(b, READ, 0);
            var (ref, results) := Reads(next, n);
            Reads(b, n + 1) == (ref, [v] + results)
  {
    hide Invoke;
  }

  lemma SecondOn(v: bv8, w: bv8, ws: seq<bv8>)
    ensures ([v] + ([w] + ws))[|ws| + 1] == ([w] + ws)[|ws|]
  {
  }
}
