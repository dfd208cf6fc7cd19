/**
  What holds of the debug server over whole runs: it stops and waits, it sends again exactly
  what it sent, and every frame it sends is well formed.
 */
module GdbSafety {
  import opened Basics
  import opened GdbWire
  import opened GdbProtocol

  // ---------- a reply, as a whole ----------

  function Spelled(t: Text): (s: Bytes)
  {
    match t
    case Str(s) => s
    case Fmt(s) => s
    case Bin(d) => Escape(d)
  }

  function Payload(ts: seq<Text>): (s: Bytes)
  {
    if ts == [] then [] else Spelled(ts[0]) + Payload(ts[1..])
  }

  // Room for '$', '#', two digits and the terminator printf adds.
  predicate Fits(payload: Bytes)
  {
    |payload| + 4 < SIZE
  }

  lemma {:induction false} PutBinIs(g: Server, data: Bytes)
    ensures var g' := PutBin(g, data);
            && (!g'.overflow ==> !g.overflow && g'.out == g.out + Escape(data))
            && (!g.overflow && |g.out| + |Escape(data)| <= SIZE ==> !g'.overflow)
    decreases |data|
  {
    hide EscapeByte;
    if data == [] {
      assert g.out + [] == g.out;
    } else if |g.out| + |EscapeByte(data[0])| <= SIZE {
      var g1 := g.(out := g.out + EscapeByte(data[0]));
      PutBinIs(g1, data[1..]);
      assert g1.out + Escape(data[1..]) == g.out + Escape(data);
    }
  }

  lemma PutIs(g: Server, t: Text)
    ensures var g' := Put(g, t);
            && (!g'.overflow ==> !g.overflow && g'.out == g.out + Spelled(t))
            && (!g.overflow && |g.out| + |Spelled(t)| < SIZE ==> !g'.overflow)
  {
    if t.Bin? {
      PutBinIs(g, t.data);
    }
  }

  // Either everything is in the buffer in order, or the overflow flag is up.
  lemma {:induction false} PutAllIs(g: Server, ts: seq<Text>)
    ensures var g' := PutAll(g, ts);
            && (!g'.overflow ==> !g.overflow && g'.out == g.out + Payload(ts))
            && (!g.overflow && |g.out| + |Payload(ts)| < SIZE ==> !g'.overflow)
    decreases |ts|
  {
    hide Put, Spelled;
    if ts == [] {
      assert g.out + [] == g.out;
    } else {
      PutIs(g, ts[0]);
      var g1 := Put(g, ts[0]);
      PutAllIs(g1, ts[1..]);
      assert g.out + Payload(ts) == g.out + Spelled(ts[0]) + Payload(ts[1..]);
    }
  }

  lemma EndFrames(payload: Bytes)
    ensures [START] + payload + ([END] + HexByte(Checksum(([START] + payload)[1..]))) == Frame(payload)
  {
    assert ([START] + payload)[1..] == payload;
  }

  /** A reply is one frame around everything written, sent whole; or, if it does not fit or an
      earlier frame is unacknowledged, the connection closes and nothing is sent. */
  lemma ReplyIs(w: World, g: Server, ts: seq<Text>)
    ensures var r := Reply(w, g, ts);
            if g.acks && g.waiting then !r.open && r.events == g.events
            else if Fits(Payload(ts)) then
              r == SendBuffer(w, g.(out := Frame(Payload(ts)), overflow := false), false)
            else !r.open && r.events == g.events
  {
    hide Put, PutAll, Spelled, Payload, Checksum, Frame;
    ReplyKeeps(w, g, ts);
    var g0 := WriteStart(g);
    var g1 := PutAll(g0, ts);
    PutAllKeeps(g0, ts);
    if !(g.acks && g.waiting) {
      PutAllIs(g0, ts);
      EndFits(g1, Payload(ts));
      if Fits(Payload(ts)) {
        EndFrames(Payload(ts));
      }
    } else {
      PutKeeps(g1, Fmt([END] + HexByte(Checksum(if g1.out == [] then [] else g1.out[1..]))));
    }
  }

  // Closing the frame overflows exactly when four more characters would not leave room.
  lemma EndFits(g: Server, payload: Bytes)
    requires g.overflow || g.out == [START] + payload
    ensures var t := Fmt([END] + HexByte(Checksum(if g.out == [] then [] else g.out[1..])));
            && (g.overflow || |payload| + 4 >= SIZE ==> |g.out| + 3 > SIZE || Put(g, t).overflow)
            && (!g.overflow && Fits(payload) ==>
                  |g.out| + 3 <= SIZE && Put(g, t) == g.(out := [START] + payload + t.text))
            && Put(g, t) == g.(out := Put(g, t).out, overflow := Put(g, t).overflow)
  {
    hide Checksum;
  }

  // ---------- stop and wait ----------

  // The frame the debugger still owes an acknowledgement for, read off the history alone.
  function Outstanding(events: seq<Event>): (frame: Option<Bytes>)
    decreases |events|
  {
    if events == [] then None
    else
      var before := events[..|events| - 1];
      match events[|events| - 1]
      case Connected => None
      case Sent(frame, acks) => if acks then Some(frame) else None
      case Resent(_) => Outstanding(before)
      case Acked => None
      case Replied(_) => Outstanding(before)
  }

  ghost predicate IsFrame(frame: Bytes)
  {
    exists payload :: frame == Frame(payload) && Fits(payload)
  }

  /** Stop-and-wait: with acknowledgements on, a new frame goes out only when none is
      outstanding; what is sent again is exactly what is outstanding; all frames are frames. */
  ghost predicate StopsAndWaits(events: seq<Event>)
    decreases |events|
  {
    events == [] ||
    var before := events[..|events| - 1];
    && StopsAndWaits(before)
    && match events[|events| - 1]
       case Sent(frame, acks) => IsFrame(frame) && (acks ==> Outstanding(before) == None)
       case Resent(frame) => Outstanding(before) == Some(frame)
       case _ => true
  }

  ghost predicate Consistent(g: Server)
  {
    && StopsAndWaits(g.events)
    && (g.open && g.waiting ==> g.acks && Outstanding(g.events) == Some(g.out) && !g.overflow)
    && (g.open && !g.waiting ==> Outstanding(g.events) == None)
  }

  // What a reply needs: it holds between packets, and while one is being handled.
  ghost predicate CanReply(g: Server)
  {
    && StopsAndWaits(g.events)
    && (g.open && g.acks && !g.waiting ==> Outstanding(g.events) == None)
  }

  lemma EventAdded(events: seq<Event>, e: Event)
    ensures (events + [e])[..|events + [e]| - 1] == events
    ensures (events + [e])[|events + [e]| - 1] == e
  {
  }

  lemma SendNewConsistent(w: World, g: Server, payload: Bytes)
    requires CanReply(g) && !(g.acks && g.waiting) && Fits(payload)
    requires g.out == Frame(payload) && !g.overflow
    ensures Consistent(SendBuffer(w, g, false))
  {
    hide Frame;
    EventAdded(g.events, Sent(g.out, g.acks));
  }

  lemma ReplyConsistent(w: World, g: Server, ts: seq<Text>)
    requires CanReply(g)
    ensures Consistent(Reply(w, g, ts))
  {
    hide Reply, Frame, SendBuffer, Payload;
    ReplyIs(w, g, ts);
    if !(g.acks && g.waiting) && Fits(Payload(ts)) {
      SendNewConsistent(w, g.(out := Frame(Payload(ts)), overflow := false), Payload(ts));
    }
  }

  lemma StopConsistent(w: World, g: Server, why: Reason, addr: nat)
    requires Consistent(g)
    ensures Consistent(WriteStop(w, g, why, addr))
  {
    hide Reply;
    ReplyConsistent(w, g.(state := STOP), [StopText(g.features, why, addr)]);
  }

  lemma InsertedConsistent(w: World, g: Server, kind: Kind, addr: nat, len: nat)
    requires Consistent(g)
    ensures Consistent(Inserted(w, g, kind, addr, len))
  {
    hide Reply;
    ReplyConsistent(w, g.(breakpoints := [Breakpoint(kind, addr, len, false, 0)] + g.breakpoints), [Str(OK)]);
  }

  lemma RemovedConsistent(w: World, g: Server, kind: Kind, addr: nat, len: nat)
    requires Consistent(g)
    ensures Consistent(Removed(w, g, kind, addr, len))
  {
    hide Reply, RemoveFirst, NotFound;
    var rest := RemoveFirst(g.breakpoints, kind, addr, len);
    if rest.None? {
      ReplyConsistent(w, g, NotFound(g.features));
    } else {
      ReplyConsistent(w, g.(breakpoints := rest.value), [Str(OK)]);
    }
  }

  lemma PacketConsistent(w: World, g: Server, body: Bytes)
    requires Consistent(g)
    ensures Consistent(HandlePacket(w, g, body))
  {
    hide Performed;
    PerformedConsistent(w, g.(packets := g.packets + 1), w.decode(g.packets, body));
  }

  lemma PerformedConsistent(w: World, g: Server, command: Command)
    requires Consistent(g)
    ensures Consistent(Performed(w, g, command))
  {
    hide Reply, WriteStop, Inserted, Removed;
    match command
    case Answer(ts) => ReplyConsistent(w, g, ts);
    case Query => StopConsistent(w, g, WHY, 0);
    case Resume(_) =>
    case ContinueActions(error, _) => ReplyConsistent(w, g, error);
    case Detach => ReplyConsistent(w, g.(state := RUN), [Str(OK)]);
    case Terminate =>
    case StartNoAck => ReplyConsistent(w, g.(acks := false), [Str(OK)]);
    case Announce(features, ts) => ReplyConsistent(w, g.(features := features), ts);
    case Insert(kind, addr, len) => InsertedConsistent(w, g, kind, addr, len);
    case Remove(kind, addr, len) => RemovedConsistent(w, g, kind, addr, len);
  }

  lemma ByteConsistent(w: World, g: Server, b: Byte)
    requires Consistent(g)
    ensures Consistent(SendByte(w, g, b))
  {
    EventAdded(g.events, Replied(b));
  }

  lemma ControlConsistent(w: World, g: Server, b: Byte)
    requires Consistent(g)
    ensures Consistent(Control(w, g, b))
  {
    EventAdded(g.events, Acked);
    EventAdded(g.events, Resent(g.out));
  }

  lemma StepConsistent(w: World, s: Stream, b: Byte)
    requires Consistent(s.server)
    ensures Consistent(Step(w, s, b).server)
  {
    hide Control, HandlePacket, SendByte, Checksum, Complete;
    if s.input == [] {
      ControlConsistent(w, s.server, b);
    } else {
      var packet := s.input + [b];
      if Complete(packet) {
        CompleteLength(packet);
        var body := packet[1..|packet| - 3];
        ByteConsistent(w, s.server, NACK);
        ByteConsistent(w, s.server, ACK);
        PacketConsistent(w, s.server, body);
        PacketConsistent(w, SendByte(w, s.server, ACK), body);
      }
    }
  }

  lemma CompleteLength(input: Bytes)
    requires Complete(input)
    ensures |input| >= 4
  {
  }

  lemma {:induction false} FeedConsistent(w: World, s: Stream, bytes: Bytes)
    requires Consistent(s.server)
    ensures Consistent(Feed(w, s, bytes).server)
    decreases |bytes|
  {
    hide Step, Consistent;
    if bytes != [] {
      StepConsistent(w, s, bytes[0]);
      FeedConsistent(w, Step(w, s, bytes[0]), bytes[1..]);
    }
  }

  lemma {:induction false} BreakpointsConsistent(w: World, g: Server, pc: Option<nat>, i: nat)
    requires i <= |g.breakpoints| && Consistent(g)
    ensures Consistent(CheckBreakpoints(w, g, pc, i))
    decreases |g.breakpoints| - i
  {
    hide WriteStop, StopsAt;
    if i < |g.breakpoints| {
      var bp := g.breakpoints[i];
      var addr := if StopsAt(bp, pc).Some? then StopsAt(bp, pc).value else 0;
      StopConsistent(w, g, At(bp.kind), addr);
      WriteStopKeeps(w, g, At(bp.kind), addr);
      var g1 := if g.state != STOP && StopsAt(bp, pc).Some? then WriteStop(w, g, At(bp.kind), addr) else g;
      BreakpointsConsistent(w, g1.(breakpoints := g1.breakpoints[i := bp.(tripped := false)]), pc, i + 1);
    }
  }

  lemma CheckConsistent(w: World, g: Server, pc: Option<nat>)
    requires Consistent(g)
    ensures Consistent(CheckForStop(w, g, pc))
  {
    hide WriteStop, CheckBreakpoints;
    StopConsistent(w, g.(ctrlc := false), CTRLC, PcOr0(pc));
    var g1 := if g.ctrlc && g.state != STOP then WriteStop(w, g.(ctrlc := false), CTRLC, PcOr0(pc)) else g;
    StopConsistent(w, g1, STEPPED, PcOr0(pc));
    BreakpointsConsistent(w, Interrupted(w, g, pc), pc, 0);
  }

  // ---------- runs ----------

  // Whatever can happen to the server, in any order.
  datatype Happening =
    | Received(bytes: Bytes)
    | Checked(pc: Option<nat>)
    | Accessed(addr: nat, len: nat, write: bool)
    | Connecting
    | Disconnected
    | Deafened                          // the listening socket failed
    | Severed                           // waiting for the sockets failed: both are closed

  function Apply(w: World, s: Stream, h: Happening): (s': Stream)
  {
    match h
    case Received(bytes) => if s.server.open then Feed(w, s, bytes) else s
    case Checked(pc) => if s.server.state == STOP then s else s.(server := CheckForStop(w, s.server, pc))
    case Accessed(addr, len, write) => s.(server := Notify(s.server, addr, len, write))
    case Connecting => if !s.server.open && s.server.listening then Accept(s) else s
    case Disconnected => s.(server := Close(s.server))
    case Deafened => s.(server := s.server.(listening := false))
    case Severed => s.(server := Close(s.server).(listening := false))
  }

  function Run(w: World, s: Stream, hs: seq<Happening>): (s': Stream)
    decreases |hs|
  {
    if hs == [] then s else Run(w, Apply(w, s, hs[0]), hs[1..])
  }

  function Created(stopped: bool): (s: Stream)
  {
    Stream(Server(if stopped then STOP else RUN, false, [], true, false, false, true, {}, [], false, 0, 0, []), [])
  }

  lemma {:induction false} RunConsistent(w: World, s: Stream, hs: seq<Happening>)
    requires Consistent(s.server)
    ensures Consistent(Run(w, s, hs).server)
    decreases |hs|
  {
    hide CheckForStop, Feed, Notify;
    if hs != [] {
      match hs[0] {
        case Received(bytes) => FeedConsistent(w, s, bytes);
        case Checked(pc) => CheckConsistent(w, s.server, pc);
        case Accessed(addr, len, write) => NotifyConsistent(s.server, addr, len, write);
        case Connecting => EventAdded(s.server.events, Connected);
        case Disconnected =>
        case Deafened =>
        case Severed =>
      }
      RunConsistent(w, Apply(w, s, hs[0]), hs[1..]);
    }
  }

  lemma NotifyConsistent(g: Server, addr: nat, len: nat, write: bool)
    requires Consistent(g)
    ensures Consistent(Notify(g, addr, len, write))
  {
  }

  /** Over every run the server stops and waits; and while it waits on an open connection its
      buffer is the frame outstanding, so a '-' sends exactly that frame again. */
  lemma EveryRunStopsAndWaits(w: World, stopped: bool, hs: seq<Happening>)
    ensures var g := Run(w, Created(stopped), hs).server;
            && StopsAndWaits(g.events)
            && (g.open && g.waiting ==> Outstanding(g.events) == Some(g.out))
            && (g.open && g.waiting && w.net(g.sends) ==> Control(w, g, NACK).events == g.events + [Resent(g.out)])
  {
    hide Run;
    RunConsistent(w, Created(stopped), hs);
    var g := Run(w, Created(stopped), hs).server;
    if g.open && g.waiting {
      WaitingOnSomething(g.events);
    }
  }

  // What is outstanding is never nothing: it is a frame.
  lemma {:induction false} WaitingOnSomething(events: seq<Event>)
    requires StopsAndWaits(events) && Outstanding(events).Some?
    ensures IsFrame(Outstanding(events).value) && Outstanding(events).value != []
    decreases |events|
  {
    hide Frame;
    var e := events[|events| - 1];
    if e.Resent? || e.Replied? {
      WaitingOnSomething(events[..|events| - 1]);
    } else {
      FrameNotEmpty(e.frame);
    }
  }

  lemma FrameNotEmpty(frame: Bytes)
    requires IsFrame(frame)
    ensures frame != []
  {
  }
}
