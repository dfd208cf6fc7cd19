/**
  The debug server as a value (gdb-server.c): its reply buffer, acknowledgements, breakpoints
  and run state, and what each operation does to them.  "GDB Remote Serial Protocol", sections
  "Overview" and "Packet Acknowledgment".
 */
module GdbProtocol {
  import opened Basics
  import opened GdbWire

  const SIZE: nat := 0x2000

  datatype RunState = STOP | RUN | STEP_SETUP | STEP | KILL

  datatype Kind = SWBREAK | HWBREAK | WATCH | RWATCH | AWATCH

  // The reasons gdb_write_stop takes: a breakpoint type, or one of three others.
  datatype Reason = At(kind: Kind) | STEPPED | CTRLC | WHY

  datatype Breakpoint = Breakpoint(kind: Kind, addr: nat, len: nat, tripped: bool, tripAddr: nat)

  datatype Feature = ERROR_MESSAGE | HWBREAK_REASON | SWBREAK_REASON | VCONT

  // One write into the reply: a whole string, a formatted one, or escaped binary.
  datatype Text = Str(text: Bytes) | Fmt(text: Bytes) | Bin(data: Bytes)

  /** What a packet asks for, once its text has been scanned.  Replies of the handlers that only
      answer (registers, memory, queries, errors) are whatever the target makes them. */
  datatype Command =
    | Answer(reply: seq<Text>)
    | Query                                             // ?
    | Resume(to: RunState)                              // c, C, s, S
    | ContinueActions(error: seq<Text>, action: Option<RunState>)  // vCont; an error reply does not stop it
    | Detach
    | Terminate                                         // k, vKill
    | StartNoAck
    | Announce(features: set<Feature>, reply: seq<Text>)
    | Insert(kind: Kind, addr: nat, len: nat)
    | Remove(kind: Kind, addr: nat, len: nat)

  // Everything that happened on the connection, in order.
  datatype Event =
    | Connected
    | Sent(frame: Bytes, acks: bool)    // a new frame, with acknowledgements on or off
    | Resent(frame: Bytes)
    | Acked                             // '+' received
    | Replied(byte: Byte)               // '+' or '-' sent

  /** The world: whether the n-th send goes through, what the n-th packet means, and what the
      two characters after '#' scan to. */
  datatype World = World(net: nat -> bool, decode: (nat, Bytes) -> Command, scan: (Byte, Byte) -> int)

  datatype Server = Server(
    state: RunState, ctrlc: bool, breakpoints: seq<Breakpoint>, listening: bool, open: bool,
    waiting: bool, acks: bool, features: set<Feature>, out: Bytes, overflow: bool,
    packets: nat, sends: nat, events: seq<Event>)

  // The server with the part of the input it has not consumed.
  datatype Stream = Stream(server: Server, input: Bytes)

  function Close(g: Server): (g': Server)
  {
    g.(open := false)
  }

  // ---------- writing ----------

  function SendBuffer(w: World, g: Server, again: bool): (g': Server)
  {
    if !g.open then g
    else if g.overflow then Close(g)
    else
      var g1 := g.(sends := g.sends + 1);
      if !w.net(g.sends) then Close(g1)
      else g1.(waiting := g.acks, events := g.events + [if again then Resent(g.out) else Sent(g.out, g.acks)])
  }

  // A single '+' or '-'.
  function SendByte(w: World, g: Server, b: Byte): (g': Server)
  {
    var g1 := g.(sends := g.sends + 1);
    if w.net(g.sends) then g1.(events := g.events + [Replied(b)]) else Close(g1)
  }

  function WriteStart(g: Server): (g': Server)
  {
    if g.acks && g.waiting then Close(g) else g.(out := [START], overflow := false)
  }

  // Escaped bytes go in one character at a time, as far as they fit.
  function PutBin(g: Server, data: Bytes): (g': Server)
    decreases |data|
  {
    if data == [] then g
    else
      var s := EscapeByte(data[0]);
      if |g.out| + |s| <= SIZE then PutBin(g.(out := g.out + s), data[1..])
      else g.(out := if |g.out| < SIZE then g.out + s[..1] else g.out, overflow := true)
  }

  function Put(g: Server, t: Text): (g': Server)
  {
    match t
    case Str(s) => if |g.out| + |s| > SIZE then g.(overflow := true) else g.(out := g.out + s)
    case Fmt(s) => if |g.out| + |s| >= SIZE then g.(overflow := true) else g.(out := g.out + s)
    case Bin(d) => PutBin(g, d)
  }

  function PutAll(g: Server, ts: seq<Text>): (g': Server)
    decreases |ts|
  {
    if ts == [] then g else PutAll(Put(g, ts[0]), ts[1..])
  }

  function WriteEnd(w: World, g: Server): (g': Server)
  {
    var g1 :=
      if |g.out| + 3 > SIZE then g.(overflow := true)
      else Put(g, Fmt([END] + HexByte(Checksum(if g.out == [] then [] else g.out[1..]))));
    SendBuffer(w, g1, false)
  }

  function Reply(w: World, g: Server, ts: seq<Text>): (g': Server)
  {
    WriteEnd(w, PutAll(WriteStart(g), ts))
  }

  const OK: Bytes := [0x4f, 0x4b]
  const NOT_FOUND_SHORT: Bytes := [0x45, 0x30, 0x31]                          // E01
  const NOT_FOUND_PREFIX: Bytes := [0x45, 0x2e]                               // E.
  const NOT_FOUND_CODE: Bytes :=                                              // error 01:
    [0x65, 0x72, 0x72, 0x6f, 0x72, 0x20, 0x30, 0x31, 0x3a, 0x20]
  const NOT_FOUND_TEXT: Bytes :=                                              // not found
    [0x6e, 0x6f, 0x74, 0x20, 0x66, 0x6f, 0x75, 0x6e, 0x64]

  function NotFound(features: set<Feature>): (ts: seq<Text>)
  {
    if ERROR_MESSAGE in features then [Str(NOT_FOUND_PREFIX), Fmt(NOT_FOUND_CODE), Str(NOT_FOUND_TEXT)]
    else [Fmt(NOT_FOUND_SHORT)]
  }

  // ---------- stop replies ----------

  function Digits(n: nat): (s: Bytes)
  {
    if n < 16 then [HexDigit(n)] else Digits(n / 16) + [HexDigit(n % 16)]
  }

  function ReasonName(k: Kind): (s: Bytes)
  {
    match k
    case SWBREAK => [0x73, 0x77, 0x62, 0x72, 0x65, 0x61, 0x6b]
    case HWBREAK => [0x68, 0x77, 0x62, 0x72, 0x65, 0x61, 0x6b]
    case WATCH => [0x77, 0x61, 0x74, 0x63, 0x68]
    case RWATCH => [0x72, 0x77, 0x61, 0x74, 0x63, 0x68]
    case AWATCH => [0x61, 0x77, 0x61, 0x74, 0x63, 0x68]
  }

  predicate IsWatch(k: Kind)
  {
    k == WATCH || k == RWATCH || k == AWATCH
  }

  function StopText(features: set<Feature>, why: Reason, addr: nat): (t: Text)
  {
    var signal: Byte := if why == CTRLC then 0x02 else 0x05;
    if why.At? && IsWatch(why.kind) then
      Fmt([0x54] + HexByte(signal) + ReasonName(why.kind) + [0x3a] + Digits(addr) + [0x3b])
    else if || (why == At(SWBREAK) && SWBREAK_REASON in features)
            || (why == At(HWBREAK) && HWBREAK_REASON in features) then
      Fmt([0x54] + HexByte(signal) + ReasonName(why.kind) + [0x3a, 0x3b])
    else
      Fmt([0x53] + HexByte(signal))
  }

  function WriteStop(w: World, g: Server, why: Reason, addr: nat): (g': Server)
  {
    Reply(w, g.(state := STOP), [StopText(g.features, why, addr)])
  }

  // ---------- packets ----------

  function RemoveFirst(bps: seq<Breakpoint>, kind: Kind, addr: nat, len: nat): (r: Option<seq<Breakpoint>>)
  {
    if bps == [] then None
    else if bps[0].kind == kind && bps[0].addr == addr && bps[0].len == len then Some(bps[1..])
    else
      var rest := RemoveFirst(bps[1..], kind, addr, len);
      if rest.None? then None else Some([bps[0]] + rest.value)
  }

  function Inserted(w: World, g: Server, kind: Kind, addr: nat, len: nat): (g': Server)
  {
    Reply(w, g.(breakpoints := [Breakpoint(kind, addr, len, false, 0)] + g.breakpoints), [Str(OK)])
  }

  function Removed(w: World, g: Server, kind: Kind, addr: nat, len: nat): (g': Server)
  {
    var rest := RemoveFirst(g.breakpoints, kind, addr, len);
    if rest.None? then Reply(w, g, NotFound(g.features))
    else Reply(w, g.(breakpoints := rest.value), [Str(OK)])
  }

  // An error reply to vCont does not keep an action that was understood from being taken.
  function Continued(w: World, g: Server, error: seq<Text>, to: Option<RunState>): (g': Server)
  {
    var g1 := if error == [] then g else Reply(w, g, error);
    if to.None? then g1 else g1.(state := to.value)
  }

  function Performed(w: World, g: Server, command: Command): (g': Server)
  {
    match command
    case Answer(ts) => Reply(w, g, ts)
    case Query => WriteStop(w, g, WHY, 0)
    case Resume(to) => g.(state := to)
    case ContinueActions(error, to) => Continued(w, g, error, to)
    case Detach => Reply(w, g.(state := RUN), [Str(OK)])
    case Terminate => Close(g.(state := KILL)).(listening := false)
    case StartNoAck => Reply(w, g.(acks := false), [Str(OK)])
    case Announce(features, ts) => Reply(w, g.(features := features), ts)
    case Insert(kind, addr, len) => Inserted(w, g, kind, addr, len)
    case Remove(kind, addr, len) => Removed(w, g, kind, addr, len)
  }

  function HandlePacket(w: World, g: Server, body: Bytes): (g': Server)
  {
    Performed(w, g.(packets := g.packets + 1), w.decode(g.packets, body))
  }

  // ---------- the input, one byte at a time ----------

  // Where the first '#' after the '$' is, if it has come.
  function FindEnd(input: Bytes, i: nat): (k: nat)
    requires i <= |input|
    ensures i <= k <= |input|
    ensures k < |input| ==> input[k] == END
    ensures forall j :: i <= j < k ==> input[j] != END
    decreases |input| - i
  {
    if i == |input| || input[i] == END then i else FindEnd(input, i + 1)
  }

  predicate Complete(input: Bytes)
  {
    |input| > 0 && input[0] == START && FindEnd(input, 1) + 3 <= |input|
  }

  // A whole packet: '$', the body, '#' and two checksum characters.
  function Packet(w: World, g: Server, packet: Bytes): (g': Server)
    requires |packet| >= 4
  {
    var n := |packet|;
    var body := packet[1..n - 3];
    if g.acks && w.scan(packet[n - 2], packet[n - 1]) != Checksum(body) then
      if g.open then SendByte(w, g, NACK) else g
    else if g.acks && g.open then
      var g1 := SendByte(w, g, ACK);
      if g1.open then HandlePacket(w, g1, body) else g1
    else
      HandlePacket(w, g, body)
  }

  // A '-' that cannot be answered, because nothing is waiting to be sent again.
  predicate Refused(g: Server, b: Byte)
  {
    g.acks && b == NACK && (!g.waiting || g.out == [])
  }

  // A byte outside any packet.
  function Control(w: World, g: Server, b: Byte): (g': Server)
  {
    if g.acks && b == ACK then
      g.(waiting := false, overflow := false, out := [], events := g.events + [Acked])
    else if g.acks && b == NACK then
      if Refused(g, b) then Close(g) else SendBuffer(w, g, true)
    else if b == CTRL_C then g.(ctrlc := true)
    else g
  }

  /** The reference parser: an automaton that keeps only the packet it is in the middle of.
      Once it has met a refused '-' it keeps everything. */
  function Step(w: World, s: Stream, b: Byte): (s': Stream)
  {
    if s.input == [] then
      if b == START then s.(input := [b])
      else Stream(Control(w, s.server, b), if Refused(s.server, b) then [b] else [])
    else
      var input := s.input + [b];
      if Complete(input) then Stream(Packet(w, s.server, input), []) else s.(input := input)
  }

  function Feed(w: World, s: Stream, bytes: Bytes): (s': Stream)
    decreases |bytes|
  {
    if bytes == [] then s else Feed(w, Step(w, s, bytes[0]), bytes[1..])
  }

  // ---------- running and stopping ----------

  predicate Relevant(bp: Breakpoint, write: bool)
  {
    (bp.kind == WATCH && write) || (bp.kind == RWATCH && !write) || bp.kind == AWATCH
  }

  predicate Hits(bp: Breakpoint, addr: nat, len: nat, write: bool)
  {
    Relevant(bp, write) && bp.addr < addr + len && addr < bp.addr + bp.len
  }

  function Touched(bp: Breakpoint, addr: nat, len: nat, write: bool): (bp': Breakpoint)
  {
    if bp.tripped || !Hits(bp, addr, len, write) then bp
    else bp.(tripped := true, tripAddr := if addr >= bp.addr then addr else bp.addr)
  }

  // The processor accessed memory.
  function Notify(g: Server, addr: nat, len: nat, write: bool): (g': Server)
  {
    if g.state == STOP then g
    else g.(breakpoints := seq(|g.breakpoints|, i requires 0 <= i < |g.breakpoints| =>
                             Touched(g.breakpoints[i], addr, len, write)))
  }

  // The address a breakpoint stops at, if it is hit now.
  function StopsAt(bp: Breakpoint, pc: Option<nat>): (addr: Option<nat>)
  {
    if !IsWatch(bp.kind) then (if pc == Some(bp.addr) then pc else None)
    else if bp.tripped then Some(bp.tripAddr)
    else None
  }

  function CheckBreakpoints(w: World, g: Server, pc: Option<nat>, i: nat): (g': Server)
    requires i <= |g.breakpoints|
    decreases |g.breakpoints| - i
  {
    if i == |g.breakpoints| then g
    else
      var bp := g.breakpoints[i];
      var g1 := if g.state != STOP && StopsAt(bp, pc).Some? then WriteStop(w, g, At(bp.kind), StopsAt(bp, pc).value) else g;
      WriteStopKeeps(w, g, At(bp.kind), if StopsAt(bp, pc).Some? then StopsAt(bp, pc).value else 0);
      CheckBreakpoints(w, g1.(breakpoints := g1.breakpoints[i := bp.(tripped := false)]), pc, i + 1)
  }

  function PcOr0(pc: Option<nat>): (a: nat)
  {
    if pc.Some? then pc.value else 0
  }

  // Ctrl-C and stepping, before the breakpoints are looked at.
  function Interrupted(w: World, g: Server, pc: Option<nat>): (g': Server)
  {
    var g1 := if g.ctrlc && g.state != STOP then WriteStop(w, g.(ctrlc := false), CTRLC, PcOr0(pc)) else g;
    if g1.state == STEP_SETUP then g1.(state := STEP)
    else if g1.state == STEP then WriteStop(w, g1, STEPPED, PcOr0(pc))
    else g1
  }

  function CheckForStop(w: World, g: Server, pc: Option<nat>): (g': Server)
  {
    CheckBreakpoints(w, Interrupted(w, g, pc), pc, 0)
  }

  // A debugger connects: everything about the last connection is forgotten, and the target stops.
  function Accept(s: Stream): (s': Stream)
  {
    Stream(s.server.(open := true, ctrlc := false, breakpoints := [], waiting := false, acks := true,
                     features := {}, out := [], overflow := false, state := STOP,
                     events := s.server.events + [Connected]),
           [])
  }

  // ---------- what writing leaves alone ----------

  lemma {:induction false} PutAllKeeps(g: Server, ts: seq<Text>)
    ensures var g' := PutAll(g, ts); g' == g.(out := g'.out, overflow := g'.overflow)
    decreases |ts|
  {
    if ts != [] {
      PutKeeps(g, ts[0]);
      PutAllKeeps(Put(g, ts[0]), ts[1..]);
    }
  }

  lemma PutKeeps(g: Server, t: Text)
    ensures var g' := Put(g, t); g' == g.(out := g'.out, overflow := g'.overflow)
  {
    if t.Bin? {
      PutBinKeeps(g, t.data);
    }
  }

  lemma {:induction false} PutBinKeeps(g: Server, data: Bytes)
    ensures var g' := PutBin(g, data); g' == g.(out := g'.out, overflow := g'.overflow)
    decreases |data|
  {
    if data != [] && |g.out| + |EscapeByte(data[0])| <= SIZE {
      PutBinKeeps(g.(out := g.out + EscapeByte(data[0])), data[1..]);
    }
  }

  lemma ReplyKeeps(w: World, g: Server, ts: seq<Text>)
    ensures var g' := Reply(w, g, ts);
            g' == g.(open := g'.open, waiting := g'.waiting, out := g'.out, overflow := g'.overflow,
                     sends := g'.sends, events := g'.events)
  {
    hide Checksum, Put, PutAll;
    var g1 := PutAll(WriteStart(g), ts);
    PutAllKeeps(WriteStart(g), ts);
    PutKeeps(g1, Fmt([END] + HexByte(Checksum(if g1.out == [] then [] else g1.out[1..]))));
  }

  lemma WriteStopKeeps(w: World, g: Server, why: Reason, addr: nat)
    ensures WriteStop(w, g, why, addr).breakpoints == g.breakpoints
    ensures WriteStop(w, g, why, addr).state == STOP
  {
    hide Reply;
    ReplyKeeps(w, g.(state := STOP), [StopText(g.features, why, addr)]);
  }
}
