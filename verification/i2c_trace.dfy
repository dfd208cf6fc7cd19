/**
  What the peripherals see, whatever the processor does to the wires: complete transactions
  START, then reads or writes but never both, then END, one peripheral at a time.
 */
module I2cTrace {
  import opened Basics
  import opened I2cBus

  // A transaction under way with one peripheral, in one direction.
  predicate Open(t: seq<Call>, id: Id, reading: bool)
  {
    && |t| >= 1 && t[0].op == START
    && (forall i :: 0 <= i < |t| ==> t[i].id == id)
    && (forall i :: 1 <= i < |t| ==> t[i].op == if reading then READ else WRITE)
    && (reading ==> |t| >= 2)
  }

  predicate Transaction(t: seq<Call>)
  {
    && |t| >= 2
    && t[|t| - 1].op == END
    && (Open(t[..|t| - 1], t[|t| - 1].id, true) || Open(t[..|t| - 1], t[|t| - 1].id, false))
  }

  // (START (READ+ | WRITE*) END)*
  ghost predicate Transactions(calls: seq<Call>)
    decreases |calls|
  {
    calls == [] || exists k :: 0 <= k < |calls| && Transactions(calls[..k]) && Transaction(calls[k..])
  }

  ghost predicate PrefixOfTransactions(calls: seq<Call>)
  {
    exists rest :: Transactions(calls + rest)
  }

  lemma OneMore(done: seq<Call>, t: seq<Call>)
    requires Transactions(done) && Transaction(t)
    ensures Transactions(done + t)
  {
    var calls := done + t;
    assert calls[..|done|] == done && calls[|done|..] == t;
  }

  // The calls one peripheral receives.
  function ByDevice(calls: seq<Call>, id: Id): (own: seq<Call>)
    decreases |calls|
  {
    if calls == [] then []
    else
      var own := ByDevice(calls[..|calls| - 1], id);
      if calls[|calls| - 1].id == id then own + [calls[|calls| - 1]] else own
  }

  // The history splits at k into finished transactions and the one under way, if any.
  ghost predicate SplitsAt<D>(b: Bus<D>, k: nat)
  {
    && k <= |b.calls|
    && Transactions(b.calls[..k])
    && match b.current
       case None => k == |b.calls|
       case Some(id) => Open(b.calls[k..], id, b.state == DATA_OUT)
  }

  lemma InvokeAppends<D>(b: Bus<D>, op: Op, data: bv8)
    requires b.Valid() && b.current.Some?
    ensures var b' := Invoke(b, op, data).0;
            && |b'.calls| == |b.calls| + 1
            && b'.calls[..|b.calls|] == b.calls
            && b'.calls[|b.calls|].id == b.current.value && b'.calls[|b.calls|].op == op
            && b'.current == b.current && b'.state == b.state
  {
  }

  // A call in the direction of the transaction keeps it open.
  lemma OpenExtends<D>(b: Bus<D>, op: Op, data: bv8, k: nat)
    requires b.Valid() && b.current.Some? && SplitsAt(b, k)
    requires op == if b.state == DATA_OUT then READ else WRITE
    ensures SplitsAt(Invoke(b, op, data).0, k)
  {
    hide Invoke;
    var b' := Invoke(b, op, data).0;
    InvokeAppends(b, op, data);
    assert b'.calls[k..] == b.calls[k..] + [b'.calls[|b.calls|]];
    assert b'.calls[..k] == b.calls[..k];
  }

  // Finishing closes the open transaction, or does nothing.
  lemma FinishSplits<D>(b: Bus<D>, k: nat)
    requires b.Valid() && SplitsAt(b, k)
    ensures SplitsAt(Finish(b), |Finish(b).calls|)
  {
    hide Invoke;
    var calls := Finish(b).calls;
    if b.current.Some? {
      InvokeAppends(b, END, 0);
      var n := |b.calls|;
      var t := calls[k..];
      assert t[..|t| - 1] == b.calls[k..];
      assert Open(t[..|t| - 1], t[|t| - 1].id, b.state == DATA_OUT);
      assert calls == b.calls[..k] + t;
      OneMore(b.calls[..k], t);
    } else {
      InvokeNobody(b, END, 0);
      assert calls == b.calls[..k];
    }
    assert calls[..|calls|] == calls;
  }

  // The eighth bit opens, extends or leaves alone; after it the history splits again.
  lemma EighthBitSplits<D>(b: Bus<D>, k: nat) returns (k': nat)
    requires b.Valid() && SplitsAt(b, k)
    ensures SplitsAt(EighthBit(b), k')
  {
    hide Invoke;
    k' := k;
    var done := ByteDone(b);
    if b.state == ID {
      var b1 := b.(state := if b.byte & 1 == 1 then DATA_OUT else DATA_IN,
                   current := if b.devid in b.clients then Some(b.devid) else None);
      if b1.current.Some? {
        InvokeAppends(b1, START, 0);
        assert done.calls[..k] == b.calls[..k];
        if done.state == DATA_OUT {
          InvokeAppends(done, READ, 0);
          var after := Invoke(done, READ, 0).0;
          assert after.calls[..k] == b.calls[..k];
        }
      } else {
        assert Invoke(b1, START, 0).0 == b1 by { InvokeNobody(b1, START, 0); }
        InvokeNobody(b1, READ, 0);
      }
    } else if b.current.None? {
      InvokeNobody(b, WRITE, b.byte);
      InvokeNobody(b, READ, 0);
    } else if b.state == DATA_IN {
      OpenExtends(b, WRITE, b.byte, k);
      InvokeAppends(b, WRITE, b.byte);
    } else {
      OpenExtends(b, READ, 0, k);
    }
  }

  lemma InvokeNobody<D>(b: Bus<D>, op: Op, data: bv8)
    requires b.Valid() && b.current.None?
    ensures Invoke(b, op, data).0 == b
  {
  }

  // Any change of the lines whatever keeps the history well formed.
  lemma WriteSplits<D>(b: Bus<D>, lines: Lines, k: nat) returns (k': nat)
    requires b.Valid() && SplitsAt(b, k)
    ensures SplitsAt(Write(b, lines), k')
  {
    hide Invoke, EighthBit, Finish, ShiftIn, TopBit;
    k' := k;
    if b.lines.clk && !lines.clk {
      if b.stable {
        if b.bitcnt == 7 && b.state != ID {
          var b1 := b.(output := TopBit(b.byte), byte := ShiftIn(b.byte, lines.data && b.state != DATA_OUT), bitcnt := 8);
          k' := EighthBitSplits(b1, k);
        } else if b.bitcnt == 7 {
          var b1 := b.(output := TopBit(b.byte), byte := ShiftIn(b.byte, lines.data), bitcnt := 8);
          k' := EighthBitSplits(b1, k);
        }
      } else {
        FinishSplits(b, k);
        k' := |Finish(b).calls|;
        FinishIdle(b);
      }
    }
  }

  lemma FinishIdle<D>(b: Bus<D>)
    requires b.Valid()
    ensures Finish(b).current == None && Finish(b).state == IDLE && Finish(b).bitcnt == 0
  {
  }

  lemma {:induction false} RunSplits<D>(b: Bus<D>, wave: seq<Lines>, k: nat) returns (k': nat)
    requires b.Valid() && SplitsAt(b, k)
    ensures SplitsAt(Run(b, wave), k')
    decreases |wave|
  {
    hide Write, SplitsAt;
    k' := k;
    if wave != [] {
      k' := WriteSplits(b, wave[0], k);
      k' := RunSplits(Write(b, wave[0]), wave[1..], k');
    }
  }

  lemma SplitIsPrefix<D>(b: Bus<D>, k: nat)
    requires b.Valid() && SplitsAt(b, k)
    ensures PrefixOfTransactions(b.calls)
  {
    match b.current
    case None =>
      assert b.calls + [] == b.calls[..k];
    case Some(id) =>
      var rest := [Call(id, END, 0, 0)];
      var calls := b.calls + rest;
      var t := calls[k..];
      assert t[..|t| - 1] == b.calls[k..];
      assert Open(t[..|t| - 1], t[|t| - 1].id, b.state == DATA_OUT);
      assert calls == b.calls[..k] + t;
      OneMore(b.calls[..k], t);
  }

  // From reset, any line levels at all: the calls made are a prefix of whole transactions,
  // and a peripheral is selected only while data moves.
  lemma AnyWaveMakesTransactions<D>(clients: map<Id, Client<D>>, wave: seq<Lines>)
    ensures var b := Run(Reset(clients), wave);
            && PrefixOfTransactions(b.calls)
            && (b.current.Some? ==> b.state == DATA_IN || b.state == DATA_OUT)
  {
    hide Run;
    var k := RunSplits(Reset(clients), wave, 0);
    SplitIsPrefix(Run(Reset(clients), wave), k);
  }

  // ---------- one peripheral's own view ----------

  lemma {:induction false} ByDeviceAppend(a: seq<Call>, b: seq<Call>, id: Id)
    ensures ByDevice(a + b, id) == ByDevice(a, id) + ByDevice(b, id)
    decreases |b|
  {
    if b == [] {
      assert a + b == a;
    } else {
      ByDeviceAppend(a, b[..|b| - 1], id);
      assert (a + b)[..|a + b| - 1] == a + b[..|b| - 1];
    }
  }

  lemma {:induction false} ByDeviceAllOrNothing(t: seq<Call>, id: Id, owner: Id)
    requires forall i :: 0 <= i < |t| ==> t[i].id == owner
    ensures ByDevice(t, id) == if id == owner then t else []
    decreases |t|
  {
    if t != [] {
      ByDeviceAllOrNothing(t[..|t| - 1], id, owner);
    }
  }

  lemma ByDeviceNothing(id: Id)
    ensures ByDevice([], id) == []
  {
  }

  lemma ByDeviceTransaction(t: seq<Call>, id: Id)
    requires Transaction(t)
    ensures ByDevice(t, id) == t || ByDevice(t, id) == []
  {
    var body, owner := t[..|t| - 1], t[|t| - 1].id;
    assert forall i :: 0 <= i < |body| ==> body[i].id == owner && t[i] == body[i];
    ByDeviceAllOrNothing(t, id, owner);
  }

  lemma {:induction false} ByDeviceTransactions(calls: seq<Call>, id: Id)
    requires Transactions(calls)
    ensures Transactions(ByDevice(calls, id))
    decreases |calls|
  {
    hide Transaction, ByDevice;
    if calls == [] {
      ByDeviceNothing(id);
    } else {
      var k :| 0 <= k < |calls| && Transactions(calls[..k]) && Transaction(calls[k..]);
      ByDeviceTransactions(calls[..k], id);
      ByDeviceAppend(calls[..k], calls[k..], id);
      assert calls == calls[..k] + calls[k..];
      ByDeviceTransaction(calls[k..], id);
      if ByDevice(calls[k..], id) == [] {
        assert ByDevice(calls, id) == ByDevice(calls[..k], id);
      } else {
        OneMore(ByDevice(calls[..k], id), calls[k..]);
      }
    }
  }

  // The same for each peripheral's own calls.
  lemma EachDeviceSeesTransactions<D>(clients: map<Id, Client<D>>, wave: seq<Lines>, id: Id)
    ensures PrefixOfTransactions(ByDevice(Run(Reset(clients), wave).calls, id))
  {
    hide Run;
    var calls := Run(Reset(clients), wave).calls;
    AnyWaveMakesTransactions(clients, wave);
    var rest :| Transactions(calls + rest);
    ByDeviceTransactions(calls + rest, id);
    ByDeviceAppend(calls, rest, id);
  }
}
