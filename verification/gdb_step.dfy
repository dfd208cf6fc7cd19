/**
  Stepping: the loop that serves the debugger before each instruction, and what a step packet
  lets run.
 */
module GdbStep {
  import opened Basics
  import opened GdbWire
  import opened GdbProtocol
  import opened GdbSafety
  import opened GdbStream
  import opened GdbDebug

  // ---------- the loop ----------

  // What select reports, and the program counter at the check that follows.
  datatype Poll = Quiet | Data(bytes: Bytes) | Caller | Hangup | ListenerLost | Broken

  datatype Outcome = Resumed | Done | Blocked

  predicate Alive(g: Server)
  {
    g.open || g.listening
  }

  function Select(w: World, s: Stream, poll: Poll): (s': Stream)
  {
    match poll
    case Quiet => s
    case Data(bytes) => Apply(w, s, Received(bytes))
    case Caller => Apply(w, s, Connecting)
    case Hangup => Apply(w, s, Disconnected)
    case ListenerLost => Apply(w, s, Deafened)
    case Broken => Apply(w, s, Severed)
  }

  // The loop run before each instruction; it blocks when there is nothing more to poll.
  function ServeStep(w: World, s: Stream, polls: seq<(Poll, Option<nat>)>): (r: (Stream, Outcome))
    decreases |polls|
  {
    if s.server.state == KILL then (s, Done)
    else if !Alive(s.server) then (s, Done)
    else if polls == [] then (s, Blocked)
    else
      var s1 := Select(w, s, polls[0].0);
      var s2 := Apply(w, s1, Checked(polls[0].1));
      if s2.server.state == STOP then ServeStep(w, s2, polls[1..]) else (s2, Resumed)
  }

  // One turn of the emulator's main loop: serve the debugger, then run one instruction.
  datatype Turn = Turn(polls: seq<(Poll, Option<nat>)>, accesses: seq<Access>)

  // The instructions that run before the debugger blocks or ends the run.
  function Emulate(w: World, s: Stream, turns: seq<Turn>): (r: (Stream, nat))
    decreases |turns|
  {
    if turns == [] then (s, 0)
    else
      var (s1, outcome) := ServeStep(w, s, turns[0].polls);
      if outcome != Resumed then (s1, 0)
      else
        var (s2, n) := Emulate(w, s1.(server := NotifyAll(s1.server, turns[0].accesses)), turns[1..]);
        (s2, n + 1)
  }

  // ---------- what no packet can do ----------

  /** From s to s' packets may have been handled; if none was, the target is no nearer running:
      its state is the same, or it is stopped. */
  predicate OnlyPackets(s: Server, s': Server)
  {
    s.packets <= s'.packets && (s'.packets == s.packets ==> s'.state == s.state || s'.state == STOP)
  }

  lemma PerformedCounts(w: World, g: Server, command: Command)
    ensures Performed(w, g, command).packets == g.packets
  {
    hide Reply, WriteStop, RemoveFirst;
    match command
    case Answer(ts) => ReplyKeeps(w, g, ts);
    case Query => StopCounts(w, g, WHY, 0);
    case Resume(_) =>
    case ContinueActions(error, _) => ReplyKeeps(w, g, error);
    case Detach => ReplyKeeps(w, g.(state := RUN), [Str(OK)]);
    case Terminate =>
    case StartNoAck => ReplyKeeps(w, g.(acks := false), [Str(OK)]);
    case Announce(features, ts) => ReplyKeeps(w, g.(features := features), ts);
    case Insert(kind, addr, len) =>
      ReplyKeeps(w, g.(breakpoints := [Breakpoint(kind, addr, len, false, 0)] + g.breakpoints), [Str(OK)]);
    case Remove(kind, addr, len) =>
      var rest := RemoveFirst(g.breakpoints, kind, addr, len);
      ReplyKeeps(w, g, NotFound(g.features));
      ReplyKeeps(w, g.(breakpoints := if rest.Some? then rest.value else []), [Str(OK)]);
  }

  lemma StopCounts(w: World, g: Server, why: Reason, addr: nat)
    ensures WriteStop(w, g, why, addr).packets == g.packets && WriteStop(w, g, why, addr).state == STOP
  {
    hide Reply;
    ReplyKeeps(w, g.(state := STOP), [StopText(g.features, why, addr)]);
  }

  lemma PacketCounts(w: World, g: Server, packet: Bytes)
    requires |packet| >= 4
    ensures OnlyPackets(g, Packet(w, g, packet))
  {
    hide Performed, Checksum;
    var body := packet[1..|packet| - 3];
    var g1 := SendByte(w, g, ACK);
    PerformedCounts(w, g.(packets := g.packets + 1), w.decode(g.packets, body));
    PerformedCounts(w, g1.(packets := g1.packets + 1), w.decode(g1.packets, body));
  }

  lemma {:induction false} FeedCounts(w: World, s: Stream, bytes: Bytes)
    ensures OnlyPackets(s.server, Feed(w, s, bytes).server)
    decreases |bytes|
  {
    hide Packet, Complete;
    if bytes != [] {
      var s1 := Step(w, s, bytes[0]);
      if s.input != [] && Complete(s.input + [bytes[0]]) {
        CompleteLength(s.input + [bytes[0]]);
        PacketCounts(w, s.server, s.input + [bytes[0]]);
      }
      assert OnlyPackets(s.server, s1.server);
      FeedCounts(w, s1, bytes[1..]);
    }
  }

  lemma SelectCounts(w: World, s: Stream, poll: Poll)
    ensures OnlyPackets(s.server, Select(w, s, poll).server)
  {
    hide Feed;
    if poll.Data? {
      FeedCounts(w, s, poll.bytes);
    }
  }

  lemma {:induction false} BreakpointsCount(w: World, g: Server, pc: Option<nat>, i: nat)
    requires i <= |g.breakpoints|
    ensures CheckBreakpoints(w, g, pc, i).packets == g.packets
    decreases |g.breakpoints| - i
  {
    hide WriteStop, StopsAt;
    if i < |g.breakpoints| {
      var bp := g.breakpoints[i];
      var addr := if StopsAt(bp, pc).Some? then StopsAt(bp, pc).value else 0;
      StopCounts(w, g, At(bp.kind), addr);
      WriteStopKeeps(w, g, At(bp.kind), addr);
      var g1 := if g.state != STOP && StopsAt(bp, pc).Some? then WriteStop(w, g, At(bp.kind), addr) else g;
      BreakpointsCount(w, g1.(breakpoints := g1.breakpoints[i := bp.(tripped := false)]), pc, i + 1);
    }
  }

  lemma InterruptCounts(w: World, g: Server, pc: Option<nat>)
    ensures Interrupted(w, g, pc).packets == g.packets
  {
    hide WriteStop;
    StopCounts(w, g.(ctrlc := false), CTRLC, PcOr0(pc));
    var g1 := if g.ctrlc && g.state != STOP then WriteStop(w, g.(ctrlc := false), CTRLC, PcOr0(pc)) else g;
    StopCounts(w, g1, STEPPED, PcOr0(pc));
  }

  lemma CheckCounts(w: World, g: Server, pc: Option<nat>)
    ensures CheckForStop(w, g, pc).packets == g.packets
  {
    hide Interrupted, CheckBreakpoints;
    InterruptCounts(w, g, pc);
    BreakpointsCount(w, Interrupted(w, g, pc), pc, 0);
  }

  // One poll and the check after it.
  function Polled(w: World, s: Stream, poll: (Poll, Option<nat>)): (s': Stream)
  {
    Apply(w, Select(w, s, poll.0), Checked(poll.1))
  }

  lemma PolledCounts(w: World, s: Stream, poll: (Poll, Option<nat>))
    ensures var s1 := Select(w, s, poll.0);
            && s.server.packets <= s1.server.packets == Polled(w, s, poll).server.packets
            && (Polled(w, s, poll).server.packets == s.server.packets && s.server.state == STOP ==>
                  Polled(w, s, poll).server.state == STOP)
  {
    hide Select, CheckForStop;
    SelectCounts(w, s, poll.0);
    CheckCounts(w, Select(w, s, poll.0).server, poll.1);
  }

  // ---------- one turn ----------

  // A turn handles packets or none; from a stopped target, none means no instruction.
  lemma {:induction false} StoppedStaysStopped(w: World, s: Stream, polls: seq<(Poll, Option<nat>)>)
    ensures var (r, outcome) := ServeStep(w, s, polls);
            && s.server.packets <= r.server.packets
            && (r.server.packets == s.server.packets && s.server.state == STOP ==> outcome != Resumed && r.server.state == STOP)
    decreases |polls|
  {
    hide Select, Polled;
    if s.server.state != KILL && Alive(s.server) && polls != [] {
      PolledCounts(w, s, polls[0]);
      PolledIs(w, s, polls[0]);
      var s2 := Polled(w, s, polls[0]);
      if s2.server.state == STOP {
        StoppedStaysStopped(w, s2, polls[1..]);
      }
    }
  }

  lemma PolledIs(w: World, s: Stream, poll: (Poll, Option<nat>))
    ensures Polled(w, s, poll) == Apply(w, Select(w, s, poll.0), Checked(poll.1))
  {
  }

  lemma SteppingCheck(w: World, g: Server, pc: Option<nat>)
    requires g.state == STEP
    ensures CheckForStop(w, g, pc).state == STOP
  {
    hide WriteStop, CheckBreakpoints, Interrupted;
    var g2 := Interrupted(w, g, pc);
    InterruptedIs(w, g, pc);
    assert g2.breakpoints == Cleared(g2.breakpoints, 0);
    CheckBreakpointsIs(w, g2, pc, g2.breakpoints, 0);
  }

  // The first half either stops at once, or marks the step and lets go.
  lemma SetupCheck(w: World, g: Server, pc: Option<nat>)
    requires g.state == STEP_SETUP
    ensures var r := CheckForStop(w, g, pc);
            && (r.state == STOP || r.state == STEP)
            && (!g.ctrlc && FirstStop(g.breakpoints, pc, 0) == |g.breakpoints| ==>
                  r == g.(state := STEP, breakpoints := Cleared(g.breakpoints, |g.breakpoints|)))
  {
    hide WriteStop, CheckBreakpoints, StopsAt, Interrupted;
    var g2 := Interrupted(w, g, pc);
    InterruptedIs(w, g, pc);
    assert g2.breakpoints == Cleared(g2.breakpoints, 0);
    CheckBreakpointsIs(w, g2, pc, g2.breakpoints, 0);
    var k := FirstStop(g2.breakpoints, pc, 0);
    if g2.state != STOP && k < |g2.breakpoints| {
      WriteStopSends(w, g2.(breakpoints := Cleared(g2.breakpoints, k)), At(g2.breakpoints[k].kind),
                     StopsAt(g2.breakpoints[k], pc).value);
    }
  }

  /** The second half of a step always stops: whatever is polled, the emulator is not let go
      again before another packet has been handled, and the first poll finds the target stopped. */
  lemma SteppingStops(w: World, s: Stream, polls: seq<(Poll, Option<nat>)>)
    requires s.server.state == STEP
    requires ServeStep(w, s, polls).0.server.packets == s.server.packets
    ensures ServeStep(w, s, polls).1 != Resumed
    ensures polls != [] && Alive(s.server) ==> ServeStep(w, s, polls).0.server.state == STOP
  {
    hide Select, CheckForStop;
    if polls != [] && Alive(s.server) {
      var s1 := Select(w, s, polls[0].0);
      SelectCounts(w, s, polls[0].0);
      CheckCounts(w, s1.server, polls[0].1);
      var s2 := Apply(w, s1, Checked(polls[0].1));
      if s2.server.state == STOP {
        StoppedStaysStopped(w, s2, polls[1..]);
      }
      if s1.server.state == STEP {
        SteppingCheck(w, s1.server, polls[0].1);
      }
    }
  }

  // ---------- the main loop ----------

  lemma AccessesCount(g: Server, accesses: seq<Access>)
    requires g.state != STOP
    ensures NotifyAll(g, accesses).packets == g.packets && NotifyAll(g, accesses).state == g.state
    ensures Alive(NotifyAll(g, accesses)) == Alive(g)
  {
    NotifyAllTouches(g, accesses);
  }

  lemma {:induction false} NotifyNothing(g: Server, accesses: seq<Access>)
    requires g.state == STOP
    ensures NotifyAll(g, accesses) == g
    decreases |accesses|
  {
    if accesses != [] {
      NotifyNothing(g, accesses[1..]);
    }
  }

  lemma NotifyAllCounts(g: Server, accesses: seq<Access>)
    ensures NotifyAll(g, accesses).packets == g.packets
  {
    hide NotifyAll;
    if g.state == STOP {
      NotifyNothing(g, accesses);
    } else {
      AccessesCount(g, accesses);
    }
  }

  // Over a run packets are only ever added up.
  lemma {:induction false} EmulateCounts(w: World, s: Stream, turns: seq<Turn>)
    ensures s.server.packets <= Emulate(w, s, turns).0.server.packets
    decreases |turns|
  {
    hide ServeStep, NotifyAll;
    if turns != [] {
      StoppedStaysStopped(w, s, turns[0].polls);
      var (s1, outcome) := ServeStep(w, s, turns[0].polls);
      if outcome == Resumed {
        NotifyAllCounts(s1.server, turns[0].accesses);
        EmulateCounts(w, s1.(server := NotifyAll(s1.server, turns[0].accesses)), turns[1..]);
      }
    }
  }

  lemma NoInstructionAfterStep(w: World, s: Stream, turns: seq<Turn>)
    requires s.server.state == STEP
    requires Emulate(w, s, turns).0.server.packets == s.server.packets
    ensures Emulate(w, s, turns).1 == 0
    ensures turns != [] && turns[0].polls != [] && Alive(s.server) ==> Emulate(w, s, turns).0.server.state == STOP
  {
    hide ServeStep, NotifyAll;
    if turns != [] {
      StoppedStaysStopped(w, s, turns[0].polls);
      var (s1, outcome) := ServeStep(w, s, turns[0].polls);
      if outcome == Resumed {
        NotifyAllCounts(s1.server, turns[0].accesses);
        EmulateCounts(w, s1.(server := NotifyAll(s1.server, turns[0].accesses)), turns[1..]);
      }
      SteppingStops(w, s, turns[0].polls);
    }
  }

  // A turn whose first poll lets go runs its instruction and leaves the rest to the other turns.
  lemma EmulateLetsGo(w: World, s: Stream, turns: seq<Turn>)
    requires turns != [] && turns[0].polls != [] && s.server.state != KILL && Alive(s.server)
    requires Polled(w, s, turns[0].polls[0]).server.state != STOP
    ensures var s2 := Polled(w, s, turns[0].polls[0]);
            var rest := Emulate(w, s2.(server := NotifyAll(s2.server, turns[0].accesses)), turns[1..]);
            Emulate(w, s, turns) == (rest.0, rest.1 + 1)
  {
    hide Select, CheckForStop, NotifyAll;
  }

  // A turn whose first poll stops the target runs nothing before another packet.
  lemma EmulateHalts(w: World, s: Stream, turns: seq<Turn>)
    requires turns != [] && turns[0].polls != [] && s.server.state != KILL && Alive(s.server)
    requires Polled(w, s, turns[0].polls[0]).server.state == STOP
    requires Emulate(w, s, turns).0.server.packets == s.server.packets
    ensures Emulate(w, s, turns).1 == 0 && Emulate(w, s, turns).0.server.state == STOP
  {
    hide Select, CheckForStop, NotifyAll;
    var s2 := Polled(w, s, turns[0].polls[0]);
    var (s3, outcome) := ServeStep(w, s, turns[0].polls);
    assert (s3, outcome) == ServeStep(w, s2, turns[0].polls[1..]);
    PolledCounts(w, s, turns[0].polls[0]);
    StoppedStaysStopped(w, s2, turns[0].polls[1..]);
    if outcome == Resumed {
      NotifyAllCounts(s3.server, turns[0].accesses);
      EmulateCounts(w, s3.(server := NotifyAll(s3.server, turns[0].accesses)), turns[1..]);
    }
  }

  /** With a step under way, at most one instruction runs until another packet is handled,
      whatever else arrives: acknowledgements, interrupts, damaged packets, callers, hangups. */
  lemma AtMostOneInstruction(w: World, s: Stream, turns: seq<Turn>)
    requires s.server.state == STEP_SETUP
    requires Emulate(w, s, turns).0.server.packets == s.server.packets
    ensures Emulate(w, s, turns).1 <= 1
  {
    hide Select, CheckForStop, NotifyAll, Polled;
    if turns != [] && turns[0].polls != [] && Alive(s.server) {
      var (poll, pc) := turns[0].polls[0];
      var s2 := Polled(w, s, turns[0].polls[0]);
      if s2.server.state == STOP {
        EmulateHalts(w, s, turns);
      } else {
        EmulateLetsGo(w, s, turns);
        var s3 := s2.(server := NotifyAll(s2.server, turns[0].accesses));
        PolledCounts(w, s, turns[0].polls[0]);
        AccessesCount(s2.server, turns[0].accesses);
        EmulateCounts(w, s3, turns[1..]);
        PolledSetup(w, s, turns[0].polls[0]);
        NoInstructionAfterStep(w, s3, turns[1..]);
      }
    }
  }

  // A poll without a packet takes a step to its second half, or stops.
  lemma PolledSetup(w: World, s: Stream, poll: (Poll, Option<nat>))
    requires s.server.state == STEP_SETUP
    requires Polled(w, s, poll).server.packets == s.server.packets
    ensures Polled(w, s, poll).server.state in {STEP, STOP}
  {
    hide Select, CheckForStop;
    var s1 := Select(w, s, poll.0);
    SelectCounts(w, s, poll.0);
    CheckCounts(w, s1.server, poll.1);
    if s1.server.state == STEP_SETUP {
      SetupCheck(w, s1.server, poll.1);
    }
  }

  /** A read that leaves a step requested, with nothing to stop for at the instruction it starts
      from, runs exactly one instruction before the next packet; the first poll after it that
      finds the server alive stops the target again. */
  lemma ExactlyOneInstruction(w: World, s: Stream, turn: Turn, turns: seq<Turn>)
    requires s.server.state == STOP && turn.polls != [] && turn.polls[0].0.Data? && Alive(s.server)
    requires var s1 := Select(w, s, turn.polls[0].0);
             && s1.server.state == STEP_SETUP && !s1.server.ctrlc
             && FirstStop(s1.server.breakpoints, turn.polls[0].1, 0) == |s1.server.breakpoints|
             && Emulate(w, s, [turn] + turns).0.server.packets == s1.server.packets
    ensures var s1 := Select(w, s, turn.polls[0].0);
            && Emulate(w, s, [turn] + turns).1 == 1
            && (turns != [] && turns[0].polls != [] && Alive(s1.server) ==>
                  Emulate(w, s, [turn] + turns).0.server.state == STOP)
  {
    hide Select, CheckForStop, NotifyAll;
    var all := [turn] + turns;
    assert all[1..] == turns;
    var s1 := Select(w, s, turn.polls[0].0);
    SetupCheck(w, s1.server, turn.polls[0].1);
    CheckCounts(w, s1.server, turn.polls[0].1);
    var s2 := Polled(w, s, turn.polls[0]);
    EmulateLetsGo(w, s, all);
    AccessesCount(s2.server, turn.accesses);
    NoInstructionAfterStep(w, s2.(server := NotifyAll(s2.server, turn.accesses)), turns);
  }

  // s, S, and vCont with a step among its actions.
  predicate AsksForStep(command: Command)
  {
    command == Resume(STEP_SETUP) || (command.ContinueActions? && command.action == Some(STEP_SETUP))
  }

  lemma StepPerformed(w: World, g: Server, command: Command)
    requires AsksForStep(command)
    ensures var g1 := Performed(w, g, command);
            g1.state == STEP_SETUP && g1.packets == g.packets && g1.ctrlc == g.ctrlc && g1.breakpoints == g.breakpoints
  {
    hide Reply;
    if command.ContinueActions? {
      ReplyKeeps(w, g, command.error);
    }
  }

  // A step packet, whatever came before it in the same read, asks for a step and no more.
  lemma StepRequested(w: World, s: Stream, before: Bytes, payload: Bytes)
    requires ScansHex(w) && forall i :: 0 <= i < |payload| ==> payload[i] != END
    requires var s0 := Feed(w, s, before);
             && s0.input == [] && s0.server.open && (s0.server.acks ==> w.net(s0.server.sends))
             && AsksForStep(w.decode(s0.server.packets, payload))
    ensures var g := Feed(w, s, before).server;
            var g1 := Feed(w, s, before + Frame(payload)).server;
            && g1.state == STEP_SETUP && g1.packets == g.packets + 1
            && g1.ctrlc == g.ctrlc && g1.breakpoints == g.breakpoints
  {
    hide Feed, Frame, Performed;
    var g := Feed(w, s, before).server;
    FeedAppend(w, s, before, Frame(payload));
    FrameTaken(w, g, payload);
    var g1 := if g.acks then SendByte(w, g, ACK) else g;
    StepPerformed(w, g1.(packets := g1.packets + 1), w.decode(g1.packets, payload));
  }

  /** One step packet, one instruction.  A step packet reaches a stopped target as a frame on
      the wire, after anything else in the same read that leaves the stream between packets.
      If no interrupt is pending and nothing is to stop for where the step starts, exactly one
      instruction runs before the next packet is handled, and then the target is stopped. */
  lemma StepPacket(w: World, s: Stream, before: Bytes, payload: Bytes, turn: Turn, turns: seq<Turn>)
    requires ScansHex(w) && forall i :: 0 <= i < |payload| ==> payload[i] != END
    requires s.server.open && s.server.state == STOP
    requires turn.polls != [] && turn.polls[0].0 == Data(before + Frame(payload))
    requires var s0 := Feed(w, s, before);
             && s0.input == [] && s0.server.open && (s0.server.acks ==> w.net(s0.server.sends))
             && AsksForStep(w.decode(s0.server.packets, payload))
             && !s0.server.ctrlc
             && FirstStop(s0.server.breakpoints, turn.polls[0].1, 0) == |s0.server.breakpoints|
             && Emulate(w, s, [turn] + turns).0.server.packets == s0.server.packets + 1
    ensures Emulate(w, s, [turn] + turns).1 == 1
    ensures turns != [] && turns[0].polls != [] && Alive(Feed(w, s, before + Frame(payload)).server) ==>
              Emulate(w, s, [turn] + turns).0.server.state == STOP
  {
    hide Feed, Frame, Emulate, FirstStop, AsksForStep;
    StepRequested(w, s, before, payload);
    ExactlyOneInstruction(w, s, turn, turns);
  }

  // ---------- input without packets ----------

  // No packet is under way in what has been read so far.
  predicate Outside(s: Stream)
  {
    s.input == [] || s.input[0] != START
  }

  predicate Startless(poll: Poll)
  {
    poll.Data? ==> forall i :: 0 <= i < |poll.bytes| ==> poll.bytes[i] != START
  }

  predicate AllStartless(polls: seq<(Poll, Option<nat>)>)
  {
    forall i :: 0 <= i < |polls| ==> Startless(polls[i].0)
  }

  lemma {:induction false} StartlessFeed(w: World, s: Stream, bytes: Bytes)
    requires Outside(s) && forall i :: 0 <= i < |bytes| ==> bytes[i] != START
    ensures var r := Feed(w, s, bytes);
            Outside(r) && r.server.packets == s.server.packets
    decreases |bytes|
  {
    if bytes != [] {
      StartlessFeed(w, Step(w, s, bytes[0]), bytes[1..]);
    }
  }

  lemma StartlessPoll(w: World, s: Stream, poll: (Poll, Option<nat>))
    requires Outside(s) && Startless(poll.0)
    ensures var r := Polled(w, s, poll);
            Outside(r) && r.server.packets == s.server.packets
  {
    hide Feed, CheckForStop;
    CheckCounts(w, Select(w, s, poll.0).server, poll.1);
    if poll.0.Data? {
      StartlessFeed(w, s, poll.0.bytes);
    }
  }

  lemma {:induction false} StartlessServe(w: World, s: Stream, polls: seq<(Poll, Option<nat>)>)
    requires Outside(s) && AllStartless(polls)
    ensures var r := ServeStep(w, s, polls).0;
            Outside(r) && r.server.packets == s.server.packets
    decreases |polls|
  {
    hide Select, Polled, Outside, Startless;
    if s.server.state != KILL && Alive(s.server) && polls != [] {
      StartlessPoll(w, s, polls[0]);
      PolledIs(w, s, polls[0]);
      StartlessServe(w, Polled(w, s, polls[0]), polls[1..]);
    }
  }

  /** Without a `$` there are no packets, whatever else is read, so that nothing more than the
      bytes that arrive need be known for the theorems above. */
  lemma {:induction false} StartlessRun(w: World, s: Stream, turns: seq<Turn>)
    requires Outside(s) && forall i :: 0 <= i < |turns| ==> AllStartless(turns[i].polls)
    ensures Emulate(w, s, turns).0.server.packets == s.server.packets
    decreases |turns|
  {
    hide ServeStep, NotifyAll, AllStartless;
    if turns != [] {
      StartlessServe(w, s, turns[0].polls);
      var s1 := ServeStep(w, s, turns[0].polls).0;
      NotifyAllCounts(s1.server, turns[0].accesses);
      StartlessRun(w, s1.(server := NotifyAll(s1.server, turns[0].accesses)), turns[1..]);
    }
  }
}
