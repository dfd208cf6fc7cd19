/**
  The Z80 CTC of the LiNC80 (linc80.c): four counter/timer channels, channel 2 chained into
  channel 3.  The emulator advances the timers in batches of clocks with a reload loop; here
  a batch is proved to be worth exactly as many single clocks, however it is cut up.
 */
module Ctc {

  const CTC_IRQ: bv8 := 0x80
  const CTC_COUNTER: bv8 := 0x40
  const CTC_PRESCALER: bv8 := 0x20
  const CTC_PULSE: bv8 := 0x08
  const CTC_TCONST: bv8 := 0x04
  const CTC_RESET: bv8 := 0x02
  const CTC_CONTROL: bv8 := 0x01

  // A channel; `pending` is the channel's bit of the interrupt mask the four share.
  datatype Channel = Channel(count: nat, reload: nat, vector: bv8, ctrl: bv8, pending: bool)
  {
    // The widths of the C fields: a 16-bit count and a reload loaded a byte at a time.
    predicate Valid()
    {
      count < 0x10000 && reload < 0x100
    }

    predicate Stopped()
    {
      ctrl & (CTC_TCONST | CTC_RESET) == CTC_TCONST | CTC_RESET
    }

    // Channels that the clock advances; the others wait for a constant or count pulses.
    predicate Timing()
    {
      !Stopped() && ctrl & CTC_COUNTER == 0
    }

    // The count runs in units of the 256x prescaler; the 16x one goes sixteen times as fast.
    function Scaled(clocks: nat): (d: nat)
    {
      if ctrl & CTC_PRESCALER == 0 then 16 * clocks else clocks
    }

    function Period(): (p: nat)
      ensures p > 0
    {
      if reload == 0 then 0x10000 else 0x100 * reload
    }

    // Raise the interrupt if the channel has it enabled.
    function Raised(): (c: Channel)
    {
      if ctrl & CTC_IRQ != 0 then this.(pending := true) else this
    }
  }

  // How many reloads bring a balance back to non-negative, and the balance they leave.
  function Reloads(n: int, period: nat): (k: nat)
    requires period > 0
    decreases -n
  {
    if n >= 0 then 0 else 1 + Reloads(n + period, period)
  }

  function Settled(n: int, period: nat): (r: nat)
    requires period > 0
    ensures r < period || r == n
    decreases -n
  {
    if n >= 0 then n else Settled(n + period, period)
  }

  function Expiries(c: Channel, clocks: nat): (k: nat)
  {
    if c.Timing() then Reloads(c.count - c.Scaled(clocks), c.Period()) else 0
  }

  function Advance(c: Channel, clocks: nat): (c': Channel)
    ensures c.Valid() ==> c'.Valid()
  {
    if !c.Timing() then c
    else
      var c' := if Expiries(c, clocks) > 0 then c.Raised() else c;
      c'.(count := Settled(c.count - c.Scaled(clocks), c.Period()))
  }

  // One pulse arriving at a channel.
  function Pulse(c: Channel): (c': Channel)
    ensures c.Valid() ==> c'.Valid()
  {
    if c.ctrl & CTC_COUNTER != 0 then
      if c.Stopped() then c
      else
        var n := if c.count >= 0x100 then c.count - 0x100 else c.count;
        if n < 0x100 then c.Raised().(count := 0x100 * c.reload) else c.(count := n)
    else
      c.(ctrl := c.ctrl & !CTC_PULSE)
  }

  function Pulses(c: Channel, k: nat): (c': Channel)
    ensures c.Valid() ==> c'.Valid()
    decreases k
  {
    if k == 0 then c else Pulses(Pulse(c), k - 1)
  }

  // A byte written to a channel: a time constant, a control word or the vector.
  function Written(c: Channel, val: bv8, constant: nat): (c': Channel)
    requires constant < 0x100 && c.Valid()
    ensures c'.Valid()
  {
    if c.ctrl & CTC_TCONST != 0 then
      var loaded := c.(reload := constant, ctrl := c.ctrl & !CTC_TCONST);
      if c.Stopped() then loaded.(count := Preset(constant)) else loaded
    else if val & CTC_CONTROL != 0 then
      c.(ctrl := val,
         count := if val & (CTC_TCONST | CTC_RESET) == CTC_RESET then Preset(c.reload) else c.count,
         pending := c.pending && val & CTC_IRQ != 0)
    else
      c.(vector := val)
  }

  // The count a constant starts from, truncated to 16 bits.
  function Preset(reload: nat): (n: nat)
    requires reload < 0x100
    ensures n < 0x10000
  {
    if reload == 0 then 0xFF00 else (reload - 1) * 0x100
  }

  lemma PresetWraps(reload: nat)
    requires reload < 0x100
    ensures 0x100 * (reload - 1) % 0x10000 == Preset(reload)
  {
  }

  // A timer given a control word with reset and constant, then the constant, fires for the
  // j-th time one clock into each reload, the first period being one count short.
  lemma ProgrammedTimer(c: Channel, control: bv8, val: bv8, constant: nat, clocks: nat, j: nat)
    requires c.Valid() && c.ctrl & CTC_TCONST == 0 && constant < 0x100 && j > 0
    requires control & (CTC_CONTROL | CTC_TCONST | CTC_RESET) == CTC_CONTROL | CTC_TCONST | CTC_RESET
    requires control & CTC_COUNTER == 0
    ensures var c' := Written(Written(c, control, 0), val, constant);
            && c'.Timing()
            && c'.reload == constant
            && (Expiries(c', clocks) >= j <==> c'.Scaled(clocks) > j * c'.Period() - 0x100)
  {
    var c1 := Written(c, control, 0);
    var c' := Written(c1, val, constant);
    assert c1.ctrl == control && c1.Stopped();
    assert c'.ctrl == control & !CTC_TCONST;
    assert c'.Timing();
    ExpiryTimes(c', clocks, j);
    assert j * c'.Period() == (j - 1) * c'.Period() + c'.Period();
  }

  type Block = s: seq<Channel> | |s| == 4
    witness seq(4, _ => Channel(0, 0, 0, 0, false))

  predicate ValidBlock(s: Block)
  {
    s[0].Valid() && s[1].Valid() && s[2].Valid() && s[3].Valid()
  }

  // What a batch of clocks does to the block.
  function Tick(s: Block, clocks: nat): (s': Block)
    ensures ValidBlock(s) ==> ValidBlock(s')
  {
    [Advance(s[0], clocks), Advance(s[1], clocks), Advance(s[2], clocks),
     Advance(Pulses(s[3], Expiries(s[2], clocks)), clocks)]
  }

  // The reload loop stops at the first non-negative balance and loses no clock on the way.
  lemma {:induction false} ReloadsIsLeast(n: int, period: nat)
    requires period > 0
    ensures Settled(n, period) == n + Reloads(n, period) * period
    ensures forall k: nat :: k < Reloads(n, period) ==> n + k * period < 0
    decreases -n
  {
    if n < 0 {
      ReloadsIsLeast(n + period, period);
      var m := Reloads(n + period, period);
      assert (m + 1) * period == m * period + period;
      forall k: nat | k < m + 1
        ensures n + k * period < 0
      {
        if k > 0 {
          assert (k - 1) * period + period == k * period;
          assert n + period + (k - 1) * period < 0;
        }
      }
    }
  }

  // So the j-th expiry falls due at a fixed time: the remaining count, then whole periods.
  lemma ExpiryTimes(c: Channel, clocks: nat, j: nat)
    requires c.Timing() && j > 0
    ensures Expiries(c, clocks) >= j <==> c.Scaled(clocks) > c.count + (j - 1) * c.Period()
  {
    ReloadsAtLeast(c.count - c.Scaled(clocks), c.Period(), j);
  }

  lemma {:induction false} ReloadsAtLeast(n: int, period: nat, j: nat)
    requires period > 0 && j > 0
    ensures Reloads(n, period) >= j <==> n + (j - 1) * period < 0
    decreases -n
  {
    if n < 0 && j > 1 {
      ReloadsAtLeast(n + period, period, j - 1);
      assert (j - 1) * period == (j - 2) * period + period;
    }
  }

  // Paying in two instalments costs the same reloads and leaves the same balance.
  lemma {:induction false} ReloadsSplit(n: int, b: nat, period: nat)
    requires period > 0
    ensures Settled(n - b, period) == Settled(Settled(n, period) - b, period)
    ensures Reloads(n - b, period) == Reloads(n, period) + Reloads(Settled(n, period) - b, period)
    decreases -n
  {
    if n < 0 {
      ReloadsSplit(n + period, b, period);
    }
  }

  lemma AdvanceSplit(c: Channel, a: nat, b: nat)
    ensures Advance(c, a + b) == Advance(Advance(c, a), b)
    ensures Expiries(c, a + b) == Expiries(c, a) + Expiries(Advance(c, a), b)
  {
    ReloadsSplit(c.count - c.Scaled(a), c.Scaled(b), c.Period());
  }

  lemma {:induction false} PulsesSplit(c: Channel, j: nat, k: nat)
    ensures Pulses(c, j + k) == Pulses(Pulses(c, j), k)
    decreases j
  {
    if j > 0 {
      PulsesSplit(Pulse(c), j - 1, k);
    }
  }

  // A pulse only ever clears the trigger bit of a timer, which the clock does not look at;
  // and a counter does not listen to the clock.  So the two do not interfere.
  lemma PulseThenAdvance(c: Channel, clocks: nat)
    ensures Advance(Pulse(c), clocks) == Pulse(Advance(c, clocks))
  {
    hide Settled, Reloads;
    assert Pulse(c).Timing() == c.Timing();
  }

  lemma {:induction false} PulsesThenAdvance(c: Channel, k: nat, clocks: nat)
    ensures Advance(Pulses(c, k), clocks) == Pulses(Advance(c, clocks), k)
    decreases k
  {
    hide Advance, Pulse;
    if k > 0 {
      PulseThenAdvance(c, clocks);
      PulsesThenAdvance(Pulse(c), k - 1, clocks);
    }
  }

  // Batching: a batch of a + b clocks is a batch of a followed by a batch of b.
  lemma TickSplit(s: Block, a: nat, b: nat)
    ensures Tick(s, a + b) == Tick(Tick(s, a), b)
  {
    hide Advance, Expiries, Pulses, Pulse;
    AdvanceSplit(s[0], a, b);
    AdvanceSplit(s[1], a, b);
    AdvanceSplit(s[2], a, b);
    var j, k := Expiries(s[2], a), Expiries(Advance(s[2], a), b);
    PulsesSplit(s[3], j, k);
    AdvanceSplit(Pulses(s[3], j + k), a, b);
    PulsesThenAdvance(Pulses(s[3], j), k, a);
  }

  function Sum(ticks: seq<nat>): (n: nat)
  {
    if ticks == [] then 0 else ticks[0] + Sum(ticks[1..])
  }

  function TickAll(s: Block, ticks: seq<nat>): (s': Block)
    ensures ValidBlock(s) ==> ValidBlock(s')
    decreases |ticks|
  {
    if ticks == [] then s else TickAll(Tick(s, ticks[0]), ticks[1..])
  }

  // However a run of clocks is cut into batches, the block ends in the same state.
  lemma {:induction false} TickAllIsOneTick(s: Block, ticks: seq<nat>)
    ensures TickAll(s, ticks) == Tick(s, Sum(ticks))
    decreases |ticks|
  {
    hide Advance;
    if ticks == [] {
      assert forall c: Channel :: Advance(c, 0) == c && Expiries(c, 0) == 0 by {
        forall c: Channel {
          AdvanceNothing(c);
        }
      }
    } else {
      TickAllIsOneTick(Tick(s, ticks[0]), ticks[1..]);
      TickSplit(s, ticks[0], Sum(ticks[1..]));
    }
  }

  lemma AdvanceNothing(c: Channel)
    ensures Advance(c, 0) == c && Expiries(c, 0) == 0
  {
  }

  // In particular a batch is worth that many single clocks.
  lemma {:induction false} TickIsSingleClocks(s: Block, clocks: nat)
    ensures Tick(s, clocks) == TickAll(s, seq(clocks, _ => 1))
  {
    SumOfOnes(clocks);
    TickAllIsOneTick(s, seq(clocks, _ => 1));
  }

  lemma {:induction false} SumOfOnes(n: nat)
    ensures Sum(seq(n, _ => 1)) == n
  {
    if n > 0 {
      SumOfOnes(n - 1);
      assert seq(n, _ => 1)[1..] == seq(n - 1, _ => 1);
    }
  }

  // k expiries of channel i, one at a time, as the reload loop raises them.
  function Expired(s: Block, i: nat, k: nat): (s': Block)
    requires i < 4
    ensures ValidBlock(s) ==> ValidBlock(s')
    decreases k
  {
    if k == 0 then s
    else
      var raised := s[i := s[i].Raised()];
      Expired(if i == 2 then raised[3 := Pulse(raised[3])] else raised, i, k - 1)
  }

  // Taken together they raise the channel's interrupt and send that many pulses on.
  lemma {:induction false} ExpiredTogether(s: Block, i: nat, k: nat)
    requires i < 4
    ensures var s' := if k > 0 then s[i := s[i].Raised()] else s;
            Expired(s, i, k) == if i == 2 then s'[3 := Pulses(s[3], k)] else s'
    decreases k
  {
    hide Pulse;
    if k > 0 {
      var raised := s[i := s[i].Raised()];
      var next := if i == 2 then raised[3 := Pulse(raised[3])] else raised;
      ExpiredTogether(next, i, k - 1);
      assert next[i := next[i].Raised()] == next;
    }
  }

  /** From s to s' interrupts may have become pending, and the line is to be worked out again
      exactly if one did, or if it was to be already. */
  predicate Asked(was: bool, s: Block, recalc: bool, s': Block)
  {
    && (forall i :: 0 <= i < 4 ==> (s[i].pending ==> s'[i].pending))
    && (recalc <==> was || exists i :: 0 <= i < 4 && !s[i].pending && s'[i].pending)
  }

  lemma AskedNothing(was: bool, s: Block)
    ensures Asked(was, s, was, s)
  {
  }

  // One channel has changed.
  lemma AskedAt(was: bool, s: Block, recalc: bool, i: nat, c: Channel)
    requires i < 4 && (s[i].pending ==> c.pending)
    requires recalc <==> was || (!s[i].pending && c.pending)
    ensures Asked(was, s, recalc, s[i := c])
  {
    assert s[i := c][i] == c;
  }

  lemma AskedOn(was: bool, s: Block, r: bool, s': Block, r': bool, s'': Block)
    requires Asked(was, s, r, s') && Asked(r, s', r', s'')
    ensures Asked(was, s, r', s'')
  {
    if i :| 0 <= i < 4 && !s[i].pending && s'[i].pending {
      assert s''[i].pending;
    }
    if i :| 0 <= i < 4 && !s'[i].pending && s''[i].pending {
      assert !s[i].pending;
    }
  }

  lemma PulseKeepsPending(c: Channel)
    ensures c.pending ==> Pulse(c).pending
  {
  }

  class Device {
    const ctc: array<Channel>
    var recalc: bool              // the interrupt line is to be worked out again

    ghost predicate Valid()
      reads this, ctc
    {
      ctc.Length == 4 && ValidBlock(ctc[..])
    }

    constructor ()
      ensures Valid() && fresh(ctc)
      ensures forall i :: 0 <= i < 4 ==> ctc[i] == Channel(0, 0, 0, CTC_RESET, false)
      ensures !recalc
    {
      recalc := false;
      ctc := new Channel[4](_ => Channel(0, 0, 0, CTC_RESET, false));
    }

    method Interrupt(i: nat)
      requires Valid() && i < 4
      modifies this`recalc, ctc
      ensures Valid()
      ensures ctc[..] == old(ctc[..])[i := old(ctc[i]).Raised()]
      ensures recalc <==> old(recalc) || (!old(ctc[i]).pending && ctc[i].pending)
    {
      if ctc[i].ctrl & CTC_IRQ != 0 {
        if !ctc[i].pending {
          ctc[i] := ctc[i].(pending := true);
          recalc := true;
        }
      }
    }

    // Only channel 2 drives another channel, so the mutual recursion of the source ends here.
    method SendPulse(i: nat)
      requires Valid() && i < 4
      modifies this`recalc, ctc
      ensures Valid()
      ensures ctc[..] == if i == 2 then old(ctc[..])[3 := Pulse(old(ctc[3]))] else old(ctc[..])
      ensures recalc <==> old(recalc) || (!old(ctc[3]).pending && ctc[3].pending)
      decreases 3 - i, 0
    {
      if i == 2 {
        ReceivePulse(3);
      }
    }

    method ReceivePulse(i: nat)
      requires Valid() && i == 3
      modifies this`recalc, ctc
      ensures Valid()
      ensures ctc[..] == old(ctc[..])[i := Pulse(old(ctc[i]))]
      ensures recalc <==> old(recalc) || (!old(ctc[i]).pending && ctc[i].pending)
      decreases 3 - i, 1
    {
      var c := ctc[i];
      if c.ctrl & CTC_COUNTER != 0 {
        if c.Stopped() {
          return;
        }
        if c.count >= 0x100 {
          ctc[i] := c.(count := c.count - 0x100);
        }
        if ctc[i].count < 0x100 {
          Interrupt(i);
          SendPulse(i);
          assert ctc[i].reload == c.reload;
          ctc[i] := ctc[i].(count := 0x100 * ctc[i].reload);
        }
      } else if c.ctrl & CTC_PULSE != 0 {
        ctc[i] := c.(ctrl := c.ctrl & !CTC_PULSE);
      }
      assert ctc[i] == Pulse(c);
    }

    // A pending interrupt is taken away again.
    method Withdraw(i: nat)
      requires Valid() && i < 4 && ctc[i].pending
      modifies this`recalc, ctc
      ensures Valid()
      ensures ctc[..] == old(ctc[..])[i := old(ctc[i]).(pending := false)]
      ensures recalc <==> old(recalc) || forall j :: 0 <= j < 4 ==> !ctc[j].pending
    {
      ctc[i] := ctc[i].(pending := false);
      if !ctc[0].pending && !ctc[1].pending && !ctc[2].pending && !ctc[3].pending {
        recalc := true;
      }
    }

    // ctc_write; `val` and `constant` are the same byte, as mask and as number.
    method Write(i: nat, val: bv8, constant: nat)
      requires Valid() && i < 4 && constant < 0x100
      modifies this`recalc, ctc
      ensures Valid()
      ensures ctc[..] == old(ctc[..])[i := Written(old(ctc[i]), val, constant)]
      ensures recalc <==> old(recalc) || (old(ctc[i]).pending && forall j :: 0 <= j < 4 ==> !ctc[j].pending)
    {
      hide Preset;
      var c := ctc[i];
      PresetWraps(constant);
      PresetWraps(c.reload);
      if c.ctrl & CTC_TCONST != 0 {
        c := c.(reload := constant);
        if c.ctrl & (CTC_TCONST | CTC_RESET) == CTC_TCONST | CTC_RESET {
          c := c.(count := 0x100 * (c.reload - 1) % 0x10000);
        }
        c := c.(ctrl := c.ctrl & (!CTC_TCONST | CTC_RESET));
        ctc[i] := c;
      } else if val & CTC_CONTROL != 0 {
        c := c.(ctrl := val);
        if c.ctrl & (CTC_TCONST | CTC_RESET) == CTC_RESET {
          c := c.(count := 0x100 * (c.reload - 1) % 0x10000);
        }
        ctc[i] := c;
        if c.ctrl & CTC_IRQ == 0 && c.pending {
          Withdraw(i);
        }
      } else {
        ctc[i] := c.(vector := val);
      }
    }

    // The reload loop, raising each event as it passes.
    method ReloadLoop(i: nat, balance: int) returns (n: int)
      requires Valid() && i < 4
      modifies this`recalc, ctc
      ensures Valid()
      ensures n == Settled(balance, old(ctc[i]).Period())
      ensures ctc[..] == Expired(old(ctc[..]), i, Reloads(balance, old(ctc[i]).Period()))
      ensures Asked(old(recalc), old(ctc[..]), recalc, ctc[..])
    {
      hide Asked, Pulse;
      n := balance;
      ghost var s, period := ctc[..], ctc[i].Period();
      AskedNothing(recalc, s);
      while n < 0
        invariant Valid() && ctc[i].reload == s[i].reload
        invariant Settled(n, period) == Settled(balance, period)
        invariant Expired(ctc[..], i, Reloads(n, period)) == Expired(s, i, Reloads(balance, period))
        invariant Asked(old(recalc), s, recalc, ctc[..])
        decreases -n
      {
        ghost var r0, s0 := recalc, ctc[..];
        Interrupt(i);
        ghost var r1, s1 := recalc, ctc[..];
        AskedAt(r0, s0, r1, i, s1[i]);
        AskedOn(old(recalc), s, r0, s0, r1, s1);
        SendPulse(i);
        PulseKeepsPending(s1[3]);
        AskedAt(r1, s1, recalc, 3, ctc[3]);
        assert ctc[..] == s1[3 := ctc[3]];
        AskedOn(old(recalc), s, r1, s1, recalc, ctc[..]);
        if ctc[i].reload == 0 {
          n := n + 256 * 0x100;
        } else {
          n := n + ctc[i].reload * 0x100;
        }
      }
    }

    // One channel's share of a batch.
    method TickChannel(i: nat, clocks: nat)
      requires Valid() && i < 4
      requires 16 * clocks < 0x8000_0000  // the balance is a C int
      modifies this`recalc, ctc
      ensures Valid()
      ensures var s := old(ctc[..]);
              ctc[..] == Expired(s, i, Expiries(s[i], clocks))[i := Advance(s[i], clocks)]
      ensures Asked(old(recalc), old(ctc[..]), recalc, ctc[..])
    {
      hide Expired, Pulse, Settled, Reloads, Asked;
      AskedNothing(recalc, ctc[..]);
      ghost var s, c := ctc[..], ctc[i];
      ExpiredTogether(s, i, Expiries(c, clocks));
      assert s[i := c] == s && s[3 := s[3]] == s;
      if ctc[i].Stopped() {
        return;
      }
      if ctc[i].ctrl & CTC_COUNTER != 0 {
        return;
      }
      var decby := clocks;
      if ctc[i].ctrl & CTC_PRESCALER == 0 {
        decby := 16 * decby;
      }
      var n := ReloadLoop(i, ctc[i].count - decby);
      ghost var s1 := ctc[..];
      ctc[i] := ctc[i].(count := n);
      assert ctc[i] == Advance(c, clocks);
      AskedAt(recalc, s1, recalc, i, ctc[i]);
      AskedOn(old(recalc), s, recalc, s1, recalc, ctc[..]);
    }

    method TickAllChannels(clocks: nat)
      requires Valid()
      requires 16 * clocks < 0x8000_0000
      modifies this`recalc, ctc
      ensures Valid()
      ensures ctc[..] == Tick(old(ctc[..]), clocks)
      ensures Asked(old(recalc), old(ctc[..]), recalc, ctc[..])
    {
      hide Advance, Pulse, Pulses, Expiries, Expired, Asked;
      AskedNothing(recalc, ctc[..]);
      ghost var s := ctc[..];
      var i := 0;
      while i < 4
        invariant Valid() && i <= 4
        invariant forall j :: 0 <= j < 4 ==>
                    ctc[j] == if j < i then Tick(s, clocks)[j]
                              else if j == 3 == i then Pulses(s[3], Expiries(s[2], clocks))
                              else s[j]
        invariant Asked(old(recalc), s, recalc, ctc[..])
      {
        ghost var r0, s0 := recalc, ctc[..];
        ExpiredTogether(ctc[..], i, Expiries(ctc[i], clocks));
        TickChannel(i, clocks);
        AskedOn(old(recalc), s, r0, s0, recalc, ctc[..]);
        i := i + 1;
      }
    }
  }
}
