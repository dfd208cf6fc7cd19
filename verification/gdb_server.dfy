/**
  The debug server as it runs: one structure, updated in place, with a fixed output buffer.
  Every operation is tied to the value-level protocol.
 */
module GdbServer {
  import opened Basics
  import opened GdbWire
  import opened GdbProtocol
  import opened GdbSafety
  import opened GdbStream
  import opened GdbDebug
  import opened GdbStep

  class Gdb {
    const world: World
    var state: RunState
    var ctrlc: bool
    var breakpoints: seq<Breakpoint>
    var listening: bool
    var open: bool
    var waiting: bool
    var acks: bool
    var features: set<Feature>
    var input: Bytes              // what has been read and not consumed
    const output: array<Byte>
    var next: nat                 // end of what has been written to the output
    var overflow: bool
    var packets: nat
    var sends: nat
    ghost var events: seq<Event>

    ghost predicate Valid()
      reads this, output
    {
      output.Length == SIZE && next <= SIZE
    }

    // The server without its input.
    ghost function Core(): (g: Server)
      requires Valid()
      reads this, output
    {
      Server(state, ctrlc, breakpoints, listening, open, waiting, acks, features, output[..next], overflow,
             packets, sends, events)
    }

    ghost function View(): (s: Stream)
      requires Valid()
      reads this, output
    {
      Stream(Core(), input)
    }

    constructor (world: World, stopped: bool)
      ensures Valid() && fresh(output) && this.world == world
      ensures View() == Created(stopped)
    {
      this.world := world;
      state := if stopped then STOP else RUN;
      ctrlc, breakpoints, listening, open := false, [], true, false;
      waiting, acks, features, input := false, true, {}, [];
      output, next, overflow := new Byte[SIZE](_ => 0), 0, false;
      packets, sends, events := 0, 0, [];
    }

    method SendBuffer(again: bool)
      requires Valid()
      modifies this`open, this`sends, this`waiting, this`events
      ensures Valid()
      ensures Core() == GdbProtocol.SendBuffer(world, old(Core()), again)
    {
      if open {
        if overflow {
          open := false;
          return;
        }
        sends := sends + 1;
        if !world.net(sends - 1) {
          open := false;
          return;
        }
        events := events + [if again then Resent(output[..next]) else Sent(output[..next], acks)];
        waiting := acks;
      }
    }

    method SendByte(b: Byte)
      requires Valid()
      modifies this`open, this`sends, this`events
      ensures Valid()
      ensures Core() == GdbProtocol.SendByte(world, old(Core()), b)
    {
      sends := sends + 1;
      if world.net(sends - 1) {
        events := events + [Replied(b)];
      } else {
        open := false;
      }
    }

    method WriteStart()
      requires Valid()
      modifies this`open, this`next, this`overflow, output
      ensures Valid()
      ensures Core() == GdbProtocol.WriteStart(old(Core()))
    {
      if acks && waiting {
        open := false;
        return;
      }
      next := 0;
      overflow := false;
      output[next] := START;
      next := next + 1;
    }

    // Append text that is known to fit.
    method Append(text: Bytes)
      requires Valid() && next + |text| <= SIZE
      modifies this`next, output
      ensures Valid()
      ensures Core() == old(Core()).(out := old(Core()).out + text)
    {
      ghost var s := output[..next];
      var at := next;
      for i := 0 to |text|
        invariant output[..at + i] == s + text[..i]
      {
        output[at + i] := text[i];
        assert output[..at + i + 1] == output[..at + i] + [text[i]];
        assert s + text[..i + 1] == s + text[..i] + [text[i]];
      }
      next := at + |text|;
      assert text[..|text|] == text;
    }

    method WriteStr(s: Bytes)
      requires Valid()
      modifies this`next, this`overflow, output
      ensures Valid()
      ensures Core() == Put(old(Core()), Str(s))
    {
      if next + |s| > SIZE {
        overflow := true;
        return;
      }
      Append(s);
    }

    // The formatted text, printed with a terminator that must also fit.
    method WriteFmt(s: Bytes)
      requires Valid()
      modifies this`next, this`overflow, output
      ensures Valid()
      ensures Core() == Put(old(Core()), Fmt(s))
    {
      var avail := SIZE - next;
      if |s| >= avail {
        overflow := true;
      } else {
        Append(s);
      }
    }

    method WriteBin(data: Bytes)
      requires Valid()
      modifies this`next, this`overflow, output
      ensures Valid()
      ensures Core() == PutBin(old(Core()), data)
    {
      hide Mangle, PutBin;
      ghost var goal := PutBin(Core(), data);
      var rest := data;
      while rest != []
        invariant Valid()
        invariant PutBin(Core(), rest) == goal
        decreases |rest|
      {
        PutBinUnfold(Core(), rest);
        ghost var g := Core();
        var val := rest[0];
        if Special(val) {
          val := Mangle(val);
          if next + 1 > SIZE {
            overflow := true;
            return;
          }
          if next + 2 > SIZE {
            assert EscapeByte(rest[0])[..1] == [ESCAPE];
            Append([ESCAPE]);
            overflow := true;
            return;
          }
          Append([ESCAPE]);
          Append([val]);
          assert g.out + [ESCAPE] + [val] == g.out + EscapeByte(rest[0]);
        } else {
          if next + 1 > SIZE {
            overflow := true;
            return;
          }
          Append([val]);
        }
        rest := rest[1..];
      }
      PutBinUnfold(Core(), rest);
    }

    method WriteText(t: Text)
      requires Valid()
      modifies this`next, this`overflow, output
      ensures Valid()
      ensures Core() == Put(old(Core()), t)
    {
      match t {
        case Str(s) => WriteStr(s);
        case Fmt(s) => WriteFmt(s);
        case Bin(d) => WriteBin(d);
      }
    }

    method WriteEnd()
      requires Valid()
      modifies this`open, this`sends, this`waiting, this`events, this`next, this`overflow, output
      ensures Valid()
      ensures Core() == GdbProtocol.WriteEnd(world, old(Core()))
    {
      hide GdbProtocol.SendBuffer, HexByte;
      if next + 3 > SIZE {
        overflow := true;
      } else {
        var sum: Byte := 0;
        var p := 1;
        while p < next
          invariant 1 <= p && (next >= 1 ==> p <= next)
          invariant sum == Checksum(if next == 0 then [] else output[1..p])
        {
          assert output[1..p + 1][..p - 1] == output[1..p];
          sum := (sum + output[p]) % 256;
          p := p + 1;
        }
        assert next > 0 ==> output[..next][1..] == output[1..next];
        WriteFmt([END] + HexByte(sum));
      }
      SendBuffer(false);
    }

    method Reply(ts: seq<Text>)
      requires Valid()
      modifies this`open, this`sends, this`waiting, this`events, this`next, this`overflow, output
      ensures Valid()
      ensures Core() == GdbProtocol.Reply(world, old(Core()), ts)
    {
      hide GdbProtocol.WriteEnd, Put;
      WriteStart();
      ghost var g := Core();
      assert ts[0..] == ts;
      for i := 0 to |ts|
        invariant Valid()
        invariant PutAll(Core(), ts[i..]) == PutAll(g, ts)
      {
        assert ts[i..][1..] == ts[i + 1..];
        WriteText(ts[i]);
      }
      WriteEnd();
    }

    method WriteStop(why: Reason, addr: nat)
      requires Valid()
      modifies this`state, this`open, this`sends, this`waiting, this`events, this`next, this`overflow, output
      ensures Valid()
      ensures Core() == GdbProtocol.WriteStop(world, old(Core()), why, addr)
    {
      hide GdbProtocol.Reply, StopText;
      state := STOP;
      Reply([StopText(features, why, addr)]);
    }

    // Unlink the first breakpoint that matches.
    method Unlink(kind: Kind, addr: nat, len: nat) returns (found: bool)
      requires Valid()
      modifies this`breakpoints
      ensures Valid()
      ensures var rest := RemoveFirst(old(breakpoints), kind, addr, len);
              found == rest.Some? && breakpoints == if rest.Some? then rest.value else old(breakpoints)
    {
      hide RemoveFirst;
      var i := 0;
      UnlinkStarts(breakpoints, kind, addr, len);
      while i < |breakpoints|
        invariant i <= |breakpoints| && breakpoints == old(breakpoints)
        invariant UnlinkedFrom(breakpoints, i, kind, addr, len)
      {
        UnlinkMoves(breakpoints, i, kind, addr, len);
        var bp := breakpoints[i];
        if bp.kind == kind && bp.addr == addr && bp.len == len {
          breakpoints := breakpoints[..i] + breakpoints[i + 1..];
          return true;
        }
        i := i + 1;
      }
      RemoveFirstUnfold(breakpoints[i..], kind, addr, len);
      found := false;
    }

    method InsertBreakpoint(kind: Kind, addr: nat, len: nat)
      requires Valid()
      modifies this`breakpoints
      modifies this`open, this`sends, this`waiting, this`events, this`next, this`overflow, output
      ensures Valid()
      ensures Core() == Inserted(world, old(Core()), kind, addr, len)
    {
      hide GdbProtocol.Reply;
      breakpoints := [Breakpoint(kind, addr, len, false, 0)] + breakpoints;
      Reply([Str(OK)]);
    }

    method RemoveBreakpoint(kind: Kind, addr: nat, len: nat)
      requires Valid()
      modifies this`breakpoints
      modifies this`open, this`sends, this`waiting, this`events, this`next, this`overflow, output
      ensures Valid()
      ensures Core() == Removed(world, old(Core()), kind, addr, len)
    {
      hide GdbProtocol.Reply, RemoveFirst, NotFound;
      var found := Unlink(kind, addr, len);
      if found {
        Reply([Str(OK)]);
      } else {
        Reply(NotFound(features));
      }
    }

    method ContinueActions(error: seq<Text>, to: Option<RunState>)
      requires Valid()
      modifies this`state
      modifies this`open, this`sends, this`waiting, this`events, this`next, this`overflow, output
      ensures Valid()
      ensures Core() == Continued(world, old(Core()), error, to)
    {
      hide GdbProtocol.Reply;
      if error != [] {
        Reply(error);
      }
      if to.Some? {
        state := to.value;
      }
    }

    method HandlePacket(body: Bytes)
      requires Valid()
      modifies this`state, this`breakpoints, this`listening, this`acks, this`features, this`packets
      modifies this`open, this`sends, this`waiting, this`events, this`next, this`overflow, output
      ensures Valid()
      ensures Core() == GdbProtocol.HandlePacket(world, old(Core()), body)
    {
      hide Performed;
      packets := packets + 1;
      Perform(world.decode(packets - 1, body));
    }

    method Detach()
      requires Valid()
      modifies this`state
      modifies this`open, this`sends, this`waiting, this`events, this`next, this`overflow, output
      ensures Valid()
      ensures Core() == Performed(world, old(Core()), Command.Detach)
    {
      hide GdbProtocol.Reply;
      state := RUN;
      Reply([Str(OK)]);
    }

    method Terminate()
      requires Valid()
      modifies this`state, this`open, this`listening
      ensures Valid()
      ensures Core() == Performed(world, old(Core()), Command.Terminate)
    {
      state := KILL;
      open := false;
      listening := false;
    }

    method StartNoAck()
      requires Valid()
      modifies this`acks
      modifies this`open, this`sends, this`waiting, this`events, this`next, this`overflow, output
      ensures Valid()
      ensures Core() == Performed(world, old(Core()), Command.StartNoAck)
    {
      hide GdbProtocol.Reply;
      acks := false;
      Reply([Str(OK)]);
    }

    method Announce(f: set<Feature>, ts: seq<Text>)
      requires Valid()
      modifies this`features
      modifies this`open, this`sends, this`waiting, this`events, this`next, this`overflow, output
      ensures Valid()
      ensures Core() == Performed(world, old(Core()), Command.Announce(f, ts))
    {
      hide GdbProtocol.Reply;
      features := f;
      Reply(ts);
    }

    method Perform(command: Command)
      requires Valid()
      modifies this`state, this`breakpoints, this`listening, this`acks, this`features
      modifies this`open, this`sends, this`waiting, this`events, this`next, this`overflow, output
      ensures Valid()
      ensures Core() == Performed(world, old(Core()), command)
    {
      hide GdbProtocol.Reply, GdbProtocol.WriteStop, Inserted, Removed, Continued;
      match command {
        case Answer(ts) => Reply(ts);
        case Query => WriteStop(WHY, 0);
        case Resume(to) => state := to;
        case ContinueActions(error, to) => ContinueActions(error, to);
        case Detach => Detach();
        case Terminate => Terminate();
        case StartNoAck => StartNoAck();
        case Announce(f, ts) => Announce(f, ts);
        case Insert(kind, addr, len) => InsertBreakpoint(kind, addr, len);
        case Remove(kind, addr, len) => RemoveBreakpoint(kind, addr, len);
      }
    }

    /** Handle what is at the front of the input and say how much of it to drop.  A packet is
        taken whole or not at all; anything else is taken up to the next packet, or up to a
        '-' that cannot be answered, which closes the connection. */
    method HandleInput() returns (n: nat)
      requires Valid() && input != []
      modifies this`state, this`ctrlc, this`breakpoints, this`listening, this`acks, this`features, this`packets
      modifies this`open, this`sends, this`waiting, this`events, this`next, this`overflow, output
      ensures Valid() && n <= |input|
      ensures input[0] == START ==>
                if Complete(input) then
                  n == FindEnd(input, 1) + 3 && Core() == Packet(world, old(Core()), input[..n])
                else n == 0 && Core() == old(Core())
      ensures input[0] != START ==> ScannedTo(world, old(Core()), input, n, Core())
    {
      if input[0] == START {
        n := TakePacket();
      } else {
        n := ScanControls();
      }
    }

    // Sum the body of the packet up to the '#', or up to the end of what has been read.
    method SumBody() returns (p: nat, sum: Byte)
      requires input != []
      ensures p == FindEnd(input, 1) && p >= 1 && sum == Checksum(input[1..p])
    {
      hide Checksum;
      sum := 0;
      p := 1;
      assert input[1..1] == [];
      EmptyChecksum();
      while p < |input| && input[p] != END
        invariant 1 <= p <= |input|
        invariant FindEnd(input, p) == FindEnd(input, 1)
        invariant sum == Checksum(input[1..p])
      {
        ChecksumMore(input[1..p], input[p]);
        assert input[1..p + 1] == input[1..p] + [input[p]];
        sum := (sum + input[p]) % 256;
        p := p + 1;
      }
    }

    method TakePacket() returns (n: nat)
      requires Valid() && input != [] && input[0] == START
      modifies this`state, this`breakpoints, this`listening, this`acks, this`features, this`packets
      modifies this`open, this`sends, this`waiting, this`events, this`next, this`overflow, output
      ensures Valid() && n <= |input|
      ensures if Complete(input) then
                n == FindEnd(input, 1) + 3 && Core() == Packet(world, old(Core()), input[..n])
              else n == 0 && Core() == old(Core())
    {
      hide GdbProtocol.HandlePacket, GdbProtocol.SendByte, Checksum;
      var p, sum := SumBody();
      if p == |input| || p + 3 > |input| {
        return 0;
      }
      n := p + 3;
      assert input[..n][1..n - 3] == input[1..p];
      if acks {
        if sum != world.scan(input[n - 2], input[n - 1]) {
          if open {
            SendByte(NACK);
          }
          return;
        }
      }
      if acks && open {
        SendByte(ACK);
        if !open {
          return;
        }
      }
      HandlePacket(input[1..n - 3]);
    }

    // A byte outside any packet; one that cannot be answered closes the connection.
    method TakeControl(b: Byte) returns (refused: bool)
      requires Valid()
      modifies this`ctrlc, this`open, this`sends, this`waiting, this`events, this`next, this`overflow
      ensures Valid()
      ensures refused <==> Refused(old(Core()), b)
      ensures Core() == Control(world, old(Core()), b)
    {
      hide GdbProtocol.SendBuffer;
      refused := false;
      if acks && b == ACK {
        waiting := false;
        overflow := false;
        next := 0;
        events := events + [Acked];
      }
      if acks && b == NACK {
        if !waiting || next == 0 {
          open := false;
          return true;
        }
        SendBuffer(true);
      }
      if b == CTRL_C {
        ctrlc := true;
      }
    }

    method ScanControls() returns (n: nat)
      requires Valid() && input != [] && input[0] != START
      modifies this`ctrlc, this`open, this`sends, this`waiting, this`events, this`next, this`overflow
      ensures Valid() && n <= |input|
      ensures ScannedTo(world, old(Core()), input, n, Core())
    {
      hide Control, Refused, Feed, Step;
      ghost var g0 := Core();
      n := 0;
      ScanStarts(world, g0);
      while n < |input|
        invariant n <= |input| && Valid()
        invariant Feed(world, Stream(g0, []), input[..n]) == Stream(Core(), [])
      {
        ghost var g := Core();
        ControlOfStart(world, g);
        var refused := TakeControl(input[n]);
        if refused {
          RefusedCloses(world, g, input[n]);
          return;
        }
        if input[n] == START {
          return;
        }
        ScanMoves(world, g0, input, n, g);
        n := n + 1;
      }
    }

    /** A read: everything that arrives is fed, byte for byte, to the reference automaton. */
    method Receive(bytes: Bytes)
      requires Valid() && open && Partial(input)
      modifies this`input, this`state, this`ctrlc, this`breakpoints, this`listening, this`acks, this`features, this`packets
      modifies this`open, this`sends, this`waiting, this`events, this`next, this`overflow, output
      ensures Valid()
      ensures View() == Feed(world, old(View()), bytes)
    {
      hide Feed, Step, GdbProtocol.Packet, Complete, ScannedTo, Partial;
      ghost var goal := Feed(world, View(), bytes);
      PartialKept(world, Core(), input);
      FeedAppend(world, Stream(Core(), []), input, bytes);
      input := input + bytes;
      while input != []
        invariant Valid()
        invariant Feed(world, Stream(Core(), []), input) == goal
        decreases |input|
      {
        ghost var g := Core();
        var n := HandleInput();
        HandledInput(world, g, input, n, Core());
        if n == 0 {
          return;
        }
        input := input[n..];
      }
      FedNothing(world, Stream(Core(), []));
    }

    method Notify(addr: nat, len: nat, write: bool)
      requires Valid()
      modifies this`breakpoints
      ensures Valid()
      ensures Core() == GdbProtocol.Notify(old(Core()), addr, len, write)
    {
      if state == STOP {
        return;
      }
      ghost var before := breakpoints;
      for i := 0 to |breakpoints|
        invariant Valid() && |breakpoints| == |before|
        invariant forall j :: 0 <= j < |before| ==>
                    breakpoints[j] == if j < i then Touched(before[j], addr, len, write) else before[j]
      {
        var bp := breakpoints[i];
        if !bp.tripped {
          var relevant := (bp.kind == WATCH && write) || (bp.kind == RWATCH && !write) || bp.kind == AWATCH;
          if relevant && bp.addr < addr + len && addr < bp.addr + bp.len {
            breakpoints := breakpoints[i := bp.(tripped := true, tripAddr := if addr >= bp.addr then addr else bp.addr)];
          }
        }
      }
    }

    // Ctrl-C and stepping.
    method CheckInterrupt(pc: Option<nat>)
      requires Valid()
      modifies this`state, this`ctrlc
      modifies this`open, this`sends, this`waiting, this`events, this`next, this`overflow, output
      ensures Valid()
      ensures Core() == Interrupted(world, old(Core()), pc)
    {
      hide GdbProtocol.WriteStop;
      if ctrlc && state != STOP {
        ctrlc := false;
        WriteStop(CTRLC, PcOr0(pc));
      }
      if state == STEP_SETUP {
        state := STEP;
      } else if state == STEP {
        WriteStop(STEPPED, PcOr0(pc));
      }
    }

    method CheckBreakpoint(pc: Option<nat>, i: nat)
      requires Valid() && i < |breakpoints|
      modifies this`state, this`breakpoints
      modifies this`open, this`sends, this`waiting, this`events, this`next, this`overflow, output
      ensures Valid()
      ensures Core() == AfterBreakpoint(world, old(Core()), pc, i)
    {
      hide GdbProtocol.WriteStop, StopsAt;
      var bp := breakpoints[i];
      if state != STOP {
        if StopsAt(bp, pc).Some? {
          WriteStopKeeps(world, Core(), At(bp.kind), StopsAt(bp, pc).value);
          WriteStop(At(bp.kind), StopsAt(bp, pc).value);
        }
      }
      breakpoints := breakpoints[i := bp.(tripped := false)];
    }

    method CheckForStop(pc: Option<nat>)
      requires Valid()
      modifies this`state, this`ctrlc, this`breakpoints
      modifies this`open, this`sends, this`waiting, this`events, this`next, this`overflow, output
      ensures Valid()
      ensures Core() == GdbProtocol.CheckForStop(world, old(Core()), pc)
    {
      hide AfterBreakpoint, Interrupted, CheckBreakpoints;
      CheckInterrupt(pc);
      ghost var goal := CheckBreakpoints(world, Core(), pc, 0);
      var i := 0;
      while i < |breakpoints|
        invariant Valid() && i <= |breakpoints|
        invariant CheckBreakpoints(world, Core(), pc, i) == goal
        decreases |breakpoints| - i
      {
        CheckUnfold(world, Core(), pc, i);
        CheckBreakpoint(pc, i);
        i := i + 1;
      }
      CheckUnfold(world, Core(), pc, i);
    }

    // Nothing of the last connection stays.
    method Forget()
      requires Valid()
      modifies this`input, this`ctrlc, this`breakpoints, this`waiting, this`acks, this`features
      modifies this`next, this`overflow
      ensures Valid() && input == [] && next == 0
      ensures !ctrlc && breakpoints == [] && !waiting && acks && features == {} && !overflow
    {
      ctrlc := false;
      breakpoints := [];
      waiting := false;
      acks := true;
      features := {};
      input := [];
      next := 0;
      overflow := false;
    }

    method AcceptClient()
      requires Valid() && !open && listening
      modifies this`input, this`state, this`ctrlc, this`breakpoints, this`acks, this`features
      modifies this`open, this`waiting, this`events, this`next, this`overflow
      ensures Valid()
      ensures View() == Accept(old(View()))
    {
      open := true;
      Forget();
      state := STOP;
      events := events + [Connected];
      assert output[..next] == [];
    }

    // What select found: at most one thing is dealt with.
    method Select(poll: Poll)
      requires Valid() && Ready(View())
      modifies this, output
      ensures Valid() && Ready(View())
      ensures View() == GdbStep.Select(world, old(View()), poll)
    {
      hide Feed, Accept, Partial;
      match poll {
        case Quiet =>
        case Data(bytes) =>
          if open {
            FeedReady(world, View(), bytes);
            Receive(bytes);
          }
        case Caller =>
          if !open && listening {
            AcceptReady(View());
            AcceptClient();
          }
        case Hangup => open := false;
        case ListenerLost => listening := false;
        case Broken =>
          open := false;
          listening := false;
      }
    }

    // Before each instruction: serve the debugger until the target may run.
    method Serve(polls: seq<(Poll, Option<nat>)>) returns (outcome: Outcome)
      requires Valid() && Ready(View())
      modifies this, output
      ensures Valid() && Ready(View())
      ensures (View(), outcome) == ServeStep(world, old(View()), polls)
    {
      hide ServeStep, GdbStep.Select, GdbProtocol.CheckForStop, Partial;
      var i := 0;
      assert polls[0..] == polls;
      while true
        invariant i <= |polls| && Valid() && Ready(View())
        invariant ServeStep(world, View(), polls[i..]) == ServeStep(world, old(View()), polls)
        decreases |polls| - i
      {
        ServeUnfold(world, View(), polls[i..]);
        if state == KILL {
          return Done;
        }
        if !open && !listening {
          return Done;
        }
        if i == |polls| {
          return Blocked;
        }
        var (poll, pc) := polls[i];
        assert polls[i..][1..] == polls[i + 1..];
        Select(poll);
        if state != STOP {
          CheckReady(world, View(), pc);
          CheckForStop(pc);
        }
        if state != STOP {
          return Resumed;
        }
        i := i + 1;
      }
    }
  }

  // ---------- between reads ----------

  // What the input holds between reads, as long as somebody is there.
  predicate Ready(s: Stream)
  {
    s.server.open ==> Partial(s.input)
  }

  lemma ReplyStaysClosed(w: World, g: Server, ts: seq<Text>)
    requires !g.open
    ensures !Reply(w, g, ts).open
  {
    hide PutAll, Put;
    var g1 := PutAll(WriteStart(g), ts);
    PutAllKeeps(WriteStart(g), ts);
    PutKeeps(g1, Fmt([END] + HexByte(Checksum(if g1.out == [] then [] else g1.out[1..]))));
  }

  lemma PacketStaysClosed(w: World, g: Server, packet: Bytes)
    requires |packet| >= 4 && !g.open
    ensures !Packet(w, g, packet).open
  {
    hide Performed;
    PerformedStaysClosed(w, g.(packets := g.packets + 1), w.decode(g.packets, packet[1..|packet| - 3]));
  }

  lemma PerformedStaysClosed(w: World, g: Server, command: Command)
    requires !g.open
    ensures !Performed(w, g, command).open
  {
    hide Reply, RemoveFirst, NotFound, StopText;
    match command
    case Answer(ts) => ReplyStaysClosed(w, g, ts);
    case Query => ReplyStaysClosed(w, g.(state := STOP), [StopText(g.features, WHY, 0)]);
    case Resume(_) =>
    case ContinueActions(error, _) => ReplyStaysClosed(w, g, error);
    case Detach => ReplyStaysClosed(w, g.(state := RUN), [Str(OK)]);
    case Terminate =>
    case StartNoAck => ReplyStaysClosed(w, g.(acks := false), [Str(OK)]);
    case Announce(features, ts) => ReplyStaysClosed(w, g.(features := features), ts);
    case Insert(kind, addr, len) =>
      ReplyStaysClosed(w, g.(breakpoints := [Breakpoint(kind, addr, len, false, 0)] + g.breakpoints), [Str(OK)]);
    case Remove(kind, addr, len) =>
      var rest := RemoveFirst(g.breakpoints, kind, addr, len);
      ReplyStaysClosed(w, g, NotFound(g.features));
      if rest.Some? {
        ReplyStaysClosed(w, g.(breakpoints := rest.value), [Str(OK)]);
      }
  }

  lemma StepReady(w: World, s: Stream, b: Byte)
    requires Ready(s)
    ensures Ready(Step(w, s, b))
  {
    hide Packet;
    if s.input != [] && Complete(s.input + [b]) && !s.server.open {
      PacketStaysClosed(w, s.server, s.input + [b]);
    }
  }

  lemma {:induction false} FeedReady(w: World, s: Stream, bytes: Bytes)
    requires Ready(s)
    ensures Ready(Feed(w, s, bytes))
    decreases |bytes|
  {
    hide Step, Ready;
    if bytes != [] {
      StepReady(w, s, bytes[0]);
      FeedReady(w, Step(w, s, bytes[0]), bytes[1..]);
    }
  }

  lemma AcceptReady(s: Stream)
    ensures Ready(Accept(s))
  {
  }

  lemma StopStaysClosed(w: World, g: Server, why: Reason, addr: nat)
    requires !g.open
    ensures !WriteStop(w, g, why, addr).open
  {
    hide Reply, StopText;
    ReplyStaysClosed(w, g.(state := STOP), [StopText(g.features, why, addr)]);
  }

  lemma {:induction false} BreakpointsStayClosed(w: World, g: Server, pc: Option<nat>, i: nat)
    requires i <= |g.breakpoints| && !g.open
    ensures !CheckBreakpoints(w, g, pc, i).open
    decreases |g.breakpoints| - i
  {
    hide WriteStop, StopsAt, CheckBreakpoints;
    CheckUnfold(w, g, pc, i);
    if i < |g.breakpoints| {
      if StopsAt(g.breakpoints[i], pc).Some? {
        StopStaysClosed(w, g, At(g.breakpoints[i].kind), StopsAt(g.breakpoints[i], pc).value);
      }
      BreakpointsStayClosed(w, AfterBreakpoint(w, g, pc, i), pc, i + 1);
    }
  }

  lemma CheckStaysClosed(w: World, g: Server, pc: Option<nat>)
    requires !g.open
    ensures !CheckForStop(w, g, pc).open
  {
    hide WriteStop, CheckBreakpoints;
    StopStaysClosed(w, g.(ctrlc := false), CTRLC, PcOr0(pc));
    var g1 := if g.ctrlc && g.state != STOP then WriteStop(w, g.(ctrlc := false), CTRLC, PcOr0(pc)) else g;
    StopStaysClosed(w, g1, STEPPED, PcOr0(pc));
    BreakpointsStayClosed(w, Interrupted(w, g, pc), pc, 0);
  }

  lemma CheckReady(w: World, s: Stream, pc: Option<nat>)
    requires Ready(s)
    ensures Ready(s.(server := CheckForStop(w, s.server, pc)))
  {
    hide CheckForStop, Partial;
    if !s.server.open {
      CheckStaysClosed(w, s.server, pc);
    }
  }

  lemma ServeUnfold(w: World, s: Stream, polls: seq<(Poll, Option<nat>)>)
    ensures ServeStep(w, s, polls) ==
            if s.server.state == KILL then (s, Done)
            else if !Alive(s.server) then (s, Done)
            else if polls == [] then (s, Blocked)
            else
              var s1 := GdbStep.Select(w, s, polls[0].0);
              var s2 := Apply(w, s1, Checked(polls[0].1));
              if s2.server.state == STOP then ServeStep(w, s2, polls[1..]) else (s2, Resumed)
  {
    hide GdbStep.Select, Apply;
  }

  // ---------- one turn of each loop ----------

  lemma PutBinUnfold(g: Server, data: Bytes)
    ensures PutBin(g, data) ==
            if data == [] then g
            else if |g.out| + |EscapeByte(data[0])| <= SIZE then
              PutBin(g.(out := g.out + EscapeByte(data[0])), data[1..])
            else g.(out := if |g.out| < SIZE then g.out + EscapeByte(data[0])[..1] else g.out, overflow := true)
  {
    hide EscapeByte;
  }

  lemma RemoveFirstUnfold(bps: seq<Breakpoint>, kind: Kind, addr: nat, len: nat)
    ensures RemoveFirst(bps, kind, addr, len) ==
            if bps == [] then None
            else if bps[0].kind == kind && bps[0].addr == addr && bps[0].len == len then Some(bps[1..])
            else
              var rest := RemoveFirst(bps[1..], kind, addr, len);
              if rest.None? then None else Some([bps[0]] + rest.value)
  {
  }

  // Nothing before i matches, so what is removed is the first match from i on.
  predicate UnlinkedFrom(bps: seq<Breakpoint>, i: nat, kind: Kind, addr: nat, len: nat)
    requires i <= |bps|
  {
    var rest := RemoveFirst(bps[i..], kind, addr, len);
    RemoveFirst(bps, kind, addr, len) == if rest.None? then None else Some(bps[..i] + rest.value)
  }

  lemma UnlinkStarts(bps: seq<Breakpoint>, kind: Kind, addr: nat, len: nat)
    ensures UnlinkedFrom(bps, 0, kind, addr, len)
  {
    hide RemoveFirst;
    assert bps[0..] == bps;
    var rest := RemoveFirst(bps, kind, addr, len);
    if rest.Some? {
      assert bps[..0] + rest.value == rest.value;
    }
  }

  lemma UnlinkMoves(bps: seq<Breakpoint>, i: nat, kind: Kind, addr: nat, len: nat)
    requires i < |bps| && UnlinkedFrom(bps, i, kind, addr, len)
    ensures if bps[i].kind == kind && bps[i].addr == addr && bps[i].len == len then
              RemoveFirst(bps, kind, addr, len) == Some(bps[..i] + bps[i + 1..])
            else UnlinkedFrom(bps, i + 1, kind, addr, len)
  {
    hide RemoveFirst;
    RemoveFirstUnfold(bps[i..], kind, addr, len);
    assert bps[i..][1..] == bps[i + 1..];
    var rest := RemoveFirst(bps[i + 1..], kind, addr, len);
    if rest.Some? {
      assert bps[..i] + ([bps[i]] + rest.value) == bps[..i + 1] + rest.value;
    }
  }

  // ---------- what the scanning of control characters has done ----------

  // Everything before n is consumed; at n is a packet, a refused '-', or the end.
  ghost predicate ScannedTo(w: World, g: Server, input: Bytes, n: nat, after: Server)
  {
    && n <= |input|
    && var s := Feed(w, Stream(g, []), input[..n]);
    && s.input == []
    && if n == |input| || input[n] == START then after == s.server
       else Refused(s.server, input[n]) && after == Close(s.server)
  }

  lemma ScanStarts(w: World, g: Server)
    ensures Feed(w, Stream(g, []), []) == Stream(g, [])
  {
  }

  lemma FedNothing(w: World, s: Stream)
    ensures Feed(w, s, []) == s
  {
  }

  lemma ControlOfStart(w: World, g: Server)
    ensures Control(w, g, START) == g && !Refused(g, START)
  {
  }

  lemma RefusedCloses(w: World, g: Server, b: Byte)
    requires Refused(g, b)
    ensures Control(w, g, b) == Close(g)
  {
  }

  lemma ScanMoves(w: World, g0: Server, input: Bytes, n: nat, g: Server)
    requires n < |input| && input[n] != START && !Refused(g, input[n])
    requires Feed(w, Stream(g0, []), input[..n]) == Stream(g, [])
    ensures Feed(w, Stream(g0, []), input[..n + 1]) == Stream(Control(w, g, input[n]), [])
  {
    hide Feed, Control;
    assert input[..n + 1] == input[..n] + [input[n]];
    FeedAppend(w, Stream(g0, []), input[..n], [input[n]]);
    FeedOne(w, Stream(g, []), input[n]);
  }

  lemma EmptyChecksum()
    ensures Checksum([]) == 0
  {
  }

  lemma ChecksumMore(data: Bytes, b: Byte)
    ensures Checksum(data + [b]) == (Checksum(data) + b) % 256
  {
    assert (data + [b])[..|data|] == data;
  }

  // After a refused '-' everything is only kept.
  lemma {:induction false} StuckKept(w: World, s: Stream, bytes: Bytes)
    requires s.input != [] && s.input[0] != START
    ensures Feed(w, s, bytes) == s.(input := s.input + bytes)
    decreases |bytes|
  {
    hide Control, Packet;
    if bytes != [] {
      StuckKept(w, s.(input := s.input + [bytes[0]]), bytes[1..]);
      assert s.input + [bytes[0]] + bytes[1..] == s.input + bytes;
    } else {
      assert s.input + bytes == s.input;
    }
  }

  lemma RefusedStuck(w: World, g: Server, input: Bytes)
    requires input != [] && Refused(g, input[0])
    ensures Feed(w, Stream(g, []), input) == Stream(Close(g), input)
  {
    hide Feed;
    assert input == [input[0]] + input[1..];
    FeedAppend(w, Stream(g, []), [input[0]], input[1..]);
    FeedOne(w, Stream(g, []), input[0]);
    StuckKept(w, Stream(Close(g), [input[0]]), input[1..]);
  }

  // One turn of the reading loop: either it is over, or the rest still leads to the same end.
  lemma HandledInput(w: World, g: Server, input: Bytes, n: nat, after: Server)
    requires input != [] && n <= |input|
    requires input[0] == START ==>
               if Complete(input) then n == FindEnd(input, 1) + 3 && after == Packet(w, g, input[..n])
               else n == 0 && after == g
    requires input[0] != START ==> ScannedTo(w, g, input, n, after)
    ensures if n == 0 then Feed(w, Stream(g, []), input) == Stream(after, input)
            else Feed(w, Stream(after, []), input[n..]) == Feed(w, Stream(g, []), input)
  {
    hide Feed, Packet;
    assert input == input[..n] + input[n..];
    FeedAppend(w, Stream(g, []), input[..n], input[n..]);
    if input[0] == START {
      if Complete(input) {
        FindEndPrefix(input, 1, n);
        WholePacketTaken(w, g, input[..n]);
      } else {
        PartialKept(w, g, input);
      }
    } else {
      var s := Feed(w, Stream(g, []), input[..n]).server;
      if n < |input| && input[n] != START {
        RefusedStuck(w, s, input[n..]);
        RefusedStuck(w, Close(s), input[n..]);
      }
      if n == 0 {
        assert input[..0] == [];
        FedNothing(w, Stream(g, []));
      }
    }
  }
}
