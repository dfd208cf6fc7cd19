/**
  The debugging side of the server: watchpoints sum up the accesses since the last check, and a
  check stops for at most one reason.
 */
module GdbDebug {
  import opened Basics
  import opened GdbWire
  import opened GdbProtocol
  import opened GdbSafety

  // ---------- watchpoints ----------

  datatype Access = Access(addr: nat, len: nat, write: bool)

  function NotifyAll(g: Server, accesses: seq<Access>): (g': Server)
    ensures |g'.breakpoints| == |g.breakpoints|
    decreases |accesses|
  {
    if accesses == [] then g
    else NotifyAll(Notify(g, accesses[0].addr, accesses[0].len, accesses[0].write), accesses[1..])
  }

  predicate Common(bp: Breakpoint, a: Access, x: nat)
  {
    bp.addr <= x < bp.addr + bp.len && a.addr <= x < a.addr + a.len
  }

  // The watchpoint watches this kind of access and the two regions share an address.
  ghost predicate Overlaps(bp: Breakpoint, a: Access)
  {
    Relevant(bp, a.write) && exists x :: Common(bp, a, x)
  }

  ghost predicate LowestCommon(bp: Breakpoint, a: Access, x: nat)
  {
    Common(bp, a, x) && forall y :: Common(bp, a, y) ==> x <= y
  }

  // For regions that are not empty the comparison in the code is exactly overlap.
  lemma HitsIsOverlap(bp: Breakpoint, a: Access)
    requires bp.len > 0 && a.len > 0
    ensures Hits(bp, a.addr, a.len, a.write) <==> Overlaps(bp, a)
    ensures Overlaps(bp, a) ==> LowestCommon(bp, a, if a.addr >= bp.addr then a.addr else bp.addr)
  {
    var x := if a.addr >= bp.addr then a.addr else bp.addr;
    if Hits(bp, a.addr, a.len, a.write) {
      assert Common(bp, a, x);
    }
  }

  // A watchpoint of length zero, which the protocol lets through, overlaps nothing and yet is
  // hit by exactly the accesses that reach across its address.
  lemma EmptyWatchpoint(bp: Breakpoint, a: Access)
    requires bp.len == 0
    ensures !Overlaps(bp, a)
    ensures Hits(bp, a.addr, a.len, a.write) <==> Relevant(bp, a.write) && a.addr < bp.addr < a.addr + a.len
  {
  }

  // One region is empty and lies strictly inside the other.
  predicate Straddles(bp: Breakpoint, a: Access)
  {
    || (bp.len == 0 && a.addr < bp.addr < a.addr + a.len)
    || (a.len == 0 && bp.addr < a.addr < bp.addr + bp.len)
  }

  /** The access is of the kind watched, and shares an address with the watchpoint or, when one
      of the two is empty, has it or lies strictly within. */
  ghost predicate Meets(bp: Breakpoint, a: Access)
  {
    Overlaps(bp, a) || (Relevant(bp, a.write) && Straddles(bp, a))
  }

  // Where it is met: at the lowest address shared, or at the empty one's.
  ghost predicate MetAt(bp: Breakpoint, a: Access, x: nat)
  {
    if Straddles(bp, a) then x == (if bp.len == 0 then bp.addr else a.addr) else LowestCommon(bp, a, x)
  }

  // The comparison in the code, for regions of any length.
  lemma HitsIsMeeting(bp: Breakpoint, a: Access)
    ensures Hits(bp, a.addr, a.len, a.write) <==> Meets(bp, a)
    ensures Meets(bp, a) ==> MetAt(bp, a, if a.addr >= bp.addr then a.addr else bp.addr)
  {
    if bp.len > 0 && a.len > 0 {
      HitsIsOverlap(bp, a);
    }
  }

  /** The comparison is overlap exactly unless one of the two is empty and strictly inside the other. */
  lemma HitsIsOverlapExactly(bp: Breakpoint, a: Access)
    ensures (Hits(bp, a.addr, a.len, a.write) <==> Overlaps(bp, a)) <==> !(Relevant(bp, a.write) && Straddles(bp, a))
  {
    HitsIsMeeting(bp, a);
  }

  // The first access, if any, that a watchpoint is about.
  ghost function FirstMet(bp: Breakpoint, accesses: seq<Access>): (a: Option<Access>)
    decreases |accesses|
  {
    if accesses == [] then None
    else if Meets(bp, accesses[0]) then Some(accesses[0])
    else FirstMet(bp, accesses[1..])
  }

  lemma {:induction false} FirstMetIsFirst(bp: Breakpoint, accesses: seq<Access>)
    ensures FirstMet(bp, accesses).Some? <==> exists i :: 0 <= i < |accesses| && Meets(bp, accesses[i])
    ensures FirstMet(bp, accesses).Some? ==>
              exists i :: && 0 <= i < |accesses| && Meets(bp, accesses[i]) && FirstMet(bp, accesses) == Some(accesses[i])
                          && forall j :: 0 <= j < i ==> !Meets(bp, accesses[j])
    decreases |accesses|
  {
    hide Meets;
    if accesses != [] {
      FirstMetIsFirst(bp, accesses[1..]);
      if Meets(bp, accesses[0]) {
      } else if FirstMet(bp, accesses[1..]).Some? {
        var i :| && 0 <= i < |accesses[1..]| && Meets(bp, accesses[1..][i])
                 && FirstMet(bp, accesses[1..]) == Some(accesses[1..][i])
                 && forall j :: 0 <= j < i ==> !Meets(bp, accesses[1..][j]);
        assert accesses[i + 1] == accesses[1..][i];
        assert forall j :: 0 <= j < i + 1 ==> !Meets(bp, accesses[j]) by {
          forall j | 0 <= j < i + 1
            ensures !Meets(bp, accesses[j])
          {
            if j > 0 {
              assert accesses[j] == accesses[1..][j - 1];
            }
          }
        }
      } else {
        forall i | 0 <= i < |accesses|
          ensures !Meets(bp, accesses[i])
        {
          if i > 0 {
            assert accesses[i] == accesses[1..][i - 1];
          }
        }
      }
    }
  }

  // What a run of accesses makes of one watchpoint.
  function TouchedByAll(bp: Breakpoint, accesses: seq<Access>): (bp': Breakpoint)
    decreases |accesses|
  {
    if accesses == [] then bp
    else TouchedByAll(Touched(bp, accesses[0].addr, accesses[0].len, accesses[0].write), accesses[1..])
  }

  lemma {:induction false} NotifyAllTouches(g: Server, accesses: seq<Access>)
    requires g.state != STOP
    ensures var g' := NotifyAll(g, accesses);
            && g' == g.(breakpoints := g'.breakpoints)
            && |g'.breakpoints| == |g.breakpoints|
            && forall i :: 0 <= i < |g.breakpoints| ==> g'.breakpoints[i] == TouchedByAll(g.breakpoints[i], accesses)
    decreases |accesses|
  {
    hide Touched;
    if accesses != [] {
      NotifyAllTouches(Notify(g, accesses[0].addr, accesses[0].len, accesses[0].write), accesses[1..]);
    }
  }

  lemma {:induction false} StaysTripped(bp: Breakpoint, accesses: seq<Access>)
    requires bp.tripped
    ensures TouchedByAll(bp, accesses) == bp
    decreases |accesses|
  {
    if accesses != [] {
      StaysTripped(bp, accesses[1..]);
    }
  }

  lemma {:induction false} TouchedByFirst(bp: Breakpoint, accesses: seq<Access>)
    requires !bp.tripped
    ensures var first := FirstMet(bp, accesses);
            var bp' := TouchedByAll(bp, accesses);
            && (bp'.tripped <==> first.Some?)
            && (first.Some? ==> MetAt(bp, first.value, bp'.tripAddr))
    decreases |accesses|
  {
    hide Meets, MetAt, Hits;
    if accesses != [] {
      var a := accesses[0];
      HitsIsMeeting(bp, a);
      if Hits(bp, a.addr, a.len, a.write) {
        StaysTripped(Touched(bp, a.addr, a.len, a.write), accesses[1..]);
      } else {
        TouchedByFirst(bp, accesses[1..]);
      }
    }
  }

  /** Watchpoints sum up the trace: between two checks a watchpoint is tripped if and only if
      some access it watches met it, and it remembers where it met the first of them. */
  lemma {:induction false} WatchpointsSumUpAccesses(g: Server, accesses: seq<Access>, i: nat)
    requires g.state != STOP && i < |g.breakpoints| && !g.breakpoints[i].tripped
    ensures var bp, bp' := g.breakpoints[i], NotifyAll(g, accesses).breakpoints[i];
            && (bp'.tripped <==> exists k :: 0 <= k < |accesses| && Meets(bp, accesses[k]))
            && (bp'.tripped ==>
                  exists k :: && 0 <= k < |accesses| && Meets(bp, accesses[k])
                              && (forall j :: 0 <= j < k ==> !Meets(bp, accesses[j]))
                              && MetAt(bp, accesses[k], bp'.tripAddr))
  {
    hide Meets, MetAt, NotifyAll, TouchedByAll;
    NotifyAllTouches(g, accesses);
    TouchedByFirst(g.breakpoints[i], accesses);
    FirstMetIsFirst(g.breakpoints[i], accesses);
  }

  /** In the lengths debuggers use, meeting is overlapping. */
  lemma PositiveLengthsOverlap(bp: Breakpoint, a: Access, x: nat)
    requires bp.len > 0 && a.len > 0
    ensures Meets(bp, a) <==> Overlaps(bp, a)
    ensures MetAt(bp, a, x) <==> LowestCommon(bp, a, x)
  {
  }

  // ---------- one check ----------

  function Cleared(bps: seq<Breakpoint>, n: nat): (r: seq<Breakpoint>)
    requires n <= |bps|
    ensures |r| == |bps|
  {
    seq(|bps|, i requires 0 <= i < |bps| => if i < n then bps[i].(tripped := false) else bps[i])
  }

  // The first breakpoint, in list order, that stops here.
  function FirstStop(bps: seq<Breakpoint>, pc: Option<nat>, i: nat): (k: nat)
    requires i <= |bps|
    ensures i <= k <= |bps|
    ensures k < |bps| ==> StopsAt(bps[k], pc).Some?
    ensures forall j :: i <= j < k ==> StopsAt(bps[j], pc).None?
    decreases |bps| - i
  {
    if i == |bps| || StopsAt(bps[i], pc).Some? then i else FirstStop(bps, pc, i + 1)
  }

  // The stop for the breakpoint at k, reached with the flags before it already cleared.
  function StopFor(w: World, g: Server, bps: seq<Breakpoint>, pc: Option<nat>, k: nat): (g': Server)
    requires k < |bps| && StopsAt(bps[k], pc).Some?
  {
    WriteStop(w, g.(breakpoints := Cleared(bps, k)), At(bps[k].kind), StopsAt(bps[k], pc).value)
  }

  // One turn of the loop over the breakpoints.
  function AfterBreakpoint(w: World, g: Server, pc: Option<nat>, i: nat): (g': Server)
    requires i < |g.breakpoints|
    ensures |g'.breakpoints| == |g.breakpoints|
  {
    var bp := g.breakpoints[i];
    var g1 := if g.state != STOP && StopsAt(bp, pc).Some? then WriteStop(w, g, At(bp.kind), StopsAt(bp, pc).value) else g;
    g1.(breakpoints := g.breakpoints[i := bp.(tripped := false)])
  }

  lemma CheckUnfold(w: World, g: Server, pc: Option<nat>, i: nat)
    requires i <= |g.breakpoints|
    ensures CheckBreakpoints(w, g, pc, i)
            == if i == |g.breakpoints| then g else CheckBreakpoints(w, AfterBreakpoint(w, g, pc, i), pc, i + 1)
  {
    hide WriteStop, StopsAt;
    if i < |g.breakpoints| {
      var bp := g.breakpoints[i];
      WriteStopKeeps(w, g, At(bp.kind), if StopsAt(bp, pc).Some? then StopsAt(bp, pc).value else 0);
    }
  }

  lemma AfterBreakpointIs(w: World, g: Server, pc: Option<nat>, bps: seq<Breakpoint>, i: nat)
    requires i < |bps| && g.breakpoints == Cleared(bps, i)
    ensures AfterBreakpoint(w, g, pc, i)
            == (if g.state != STOP && StopsAt(bps[i], pc).Some? then StopFor(w, g, bps, pc, i) else g).(breakpoints := Cleared(bps, i + 1))
    ensures g.state != STOP && StopsAt(bps[i], pc).Some? ==> AfterBreakpoint(w, g, pc, i).state == STOP
  {
    hide WriteStop, StopsAt, Cleared;
    ClearedAt(bps, i);
    var bp := bps[i];
    WriteStopKeeps(w, g, At(bp.kind), if StopsAt(bp, pc).Some? then StopsAt(bp, pc).value else 0);
    assert g == g.(breakpoints := Cleared(bps, i));
  }

  // The stop for the first breakpoint from i on that is hit, if any, with every flag cleared.
  function FirstStopTaken(w: World, g: Server, bps: seq<Breakpoint>, pc: Option<nat>, i: nat): (g': Server)
    requires i <= |bps|
  {
    var k := FirstStop(bps, pc, i);
    (if g.state == STOP || k == |bps| then g else StopFor(w, g, bps, pc, k)).(breakpoints := Cleared(bps, |bps|))
  }

  // One turn of the loop leaves the same stop to be taken.
  lemma FirstStopMoves(w: World, g: Server, pc: Option<nat>, bps: seq<Breakpoint>, i: nat)
    requires i < |bps| && g.breakpoints == Cleared(bps, i)
    ensures AfterBreakpoint(w, g, pc, i).breakpoints == Cleared(bps, i + 1)
    ensures FirstStopTaken(w, AfterBreakpoint(w, g, pc, i), bps, pc, i + 1) == FirstStopTaken(w, g, bps, pc, i)
  {
    hide AfterBreakpoint, StopFor, StopsAt, Cleared;
    AfterBreakpointIs(w, g, pc, bps, i);
    var k := FirstStop(bps, pc, i);
    if g.state != STOP && k > i && k < |bps| {
      StopForAside(w, g, bps, pc, k, Cleared(bps, i + 1));
    }
  }

  // A check of the breakpoints stops for the first that is hit, if any, and clears every flag.
  lemma {:induction false} CheckBreakpointsIs(w: World, g: Server, pc: Option<nat>, bps: seq<Breakpoint>, i: nat)
    requires i <= |bps| && g.breakpoints == Cleared(bps, i)
    ensures CheckBreakpoints(w, g, pc, i) == FirstStopTaken(w, g, bps, pc, i)
    decreases |bps| - i
  {
    hide CheckBreakpoints, AfterBreakpoint, StopFor, StopsAt, Cleared, FirstStopTaken;
    CheckUnfold(w, g, pc, i);
    ClearedLength(bps, i);
    if i == |bps| {
      NoStopTaken(w, g, bps, pc);
    } else {
      FirstStopMoves(w, g, pc, bps, i);
      CheckBreakpointsIs(w, AfterBreakpoint(w, g, pc, i), pc, bps, i + 1);
    }
  }

  lemma ClearedLength(bps: seq<Breakpoint>, n: nat)
    requires n <= |bps|
    ensures |Cleared(bps, n)| == |bps|
  {
  }

  lemma NoStopTaken(w: World, g: Server, bps: seq<Breakpoint>, pc: Option<nat>)
    requires g.breakpoints == Cleared(bps, |bps|)
    ensures FirstStopTaken(w, g, bps, pc, |bps|) == g
  {
    hide StopFor, StopsAt, Cleared;
    assert g == g.(breakpoints := Cleared(bps, |bps|));
  }

  lemma StopForAside(w: World, g: Server, bps: seq<Breakpoint>, pc: Option<nat>, k: nat, other: seq<Breakpoint>)
    requires k < |bps| && StopsAt(bps[k], pc).Some?
    ensures StopFor(w, g.(breakpoints := other), bps, pc, k) == StopFor(w, g, bps, pc, k)
  {
    hide WriteStop;
  }

  lemma ClearedAt(bps: seq<Breakpoint>, i: nat)
    requires i < |bps|
    ensures |Cleared(bps, i)| == |bps| && Cleared(bps, i)[i] == bps[i]
    ensures Cleared(bps, i)[i := bps[i].(tripped := false)] == Cleared(bps, i + 1)
  {
  }

  // One new frame at most, and only by stopping.
  ghost predicate StopsAtMostOnce(g: Server, r: Server)
  {
    r.events == g.events || (r.state == STOP && exists e :: r.events == g.events + [e] && e.Sent?)
  }

  lemma InterruptedIs(w: World, g: Server, pc: Option<nat>)
    requires g.state != STOP
    ensures var r := Interrupted(w, g, pc);
            && StopsAtMostOnce(g, r) && r.breakpoints == g.breakpoints
            && (g.state == STEP ==> r.state == STOP)
            && (g.state == STEP_SETUP ==> r == g.(state := STEP) || r.state == STOP)
            && (!g.ctrlc && g.state == STEP_SETUP ==> r == g.(state := STEP))
            && (!g.ctrlc && g.state == RUN ==> r == g)
  {
    hide WriteStop;
    WriteStopSends(w, g.(ctrlc := false), CTRLC, PcOr0(pc));
    WriteStopSends(w, g, STEPPED, PcOr0(pc));
  }

  // At most one frame leaves in any reply.
  lemma ReplySendsOne(w: World, g: Server, ts: seq<Text>)
    ensures var r := Reply(w, g, ts);
            r.events == g.events || exists e :: r.events == g.events + [e] && e.Sent?
  {
    hide Reply, Frame, Payload;
    ReplyIs(w, g, ts);
  }

  /** A check sends at most one stop reply and clears every trip flag; a running target with no
      interrupt pending is stopped by it exactly when some breakpoint or tripped watchpoint is
      hit, and for the first of them. */
  lemma CheckStopsOnce(w: World, g: Server, pc: Option<nat>)
    requires g.state != STOP
    ensures var r := CheckForStop(w, g, pc);
            && StopsAtMostOnce(g, r)
            && |r.breakpoints| == |g.breakpoints|
            && (forall i :: 0 <= i < |r.breakpoints| ==> !r.breakpoints[i].tripped)
            && (g.state == RUN && !g.ctrlc ==>
                  var k := FirstStop(g.breakpoints, pc, 0);
                  if k == |g.breakpoints| then r == g.(breakpoints := r.breakpoints)
                  else r == StopFor(w, g, g.breakpoints, pc, k).(breakpoints := r.breakpoints))
  {
    hide WriteStop, CheckBreakpoints, StopsAt, Interrupted;
    var g2 := Interrupted(w, g, pc);
    InterruptedIs(w, g, pc);
    assert g2.breakpoints == Cleared(g2.breakpoints, 0);
    CheckBreakpointsIs(w, g2, pc, g2.breakpoints, 0);
    var k := FirstStop(g2.breakpoints, pc, 0);
    if g2.state != STOP && k < |g2.breakpoints| {
      WriteStopSends(w, g2.(breakpoints := Cleared(g2.breakpoints, k)), At(g2.breakpoints[k].kind),
                     StopsAt(g2.breakpoints[k], pc).value);
    }
  }

  lemma WriteStopSends(w: World, g: Server, why: Reason, addr: nat)
    ensures var r := WriteStop(w, g, why, addr);
            r.state == STOP && r.breakpoints == g.breakpoints && StopsAtMostOnce(g, r)
  {
    hide Reply;
    ReplySendsOne(w, g.(state := STOP), [StopText(g.features, why, addr)]);
    ReplyKeeps(w, g.(state := STOP), [StopText(g.features, why, addr)]);
  }
}
