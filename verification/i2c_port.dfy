/** The bus as the emulator keeps it: a structure updated on every change of the lines. */
module I2cPort {
  import opened Basics
  import opened I2cBus

  class Port<D(!new)> {
    var byte: bv8
    var output: bool
    var lines: Lines
    var bitcnt: nat
    var state: Phase
    var stable: bool
    var devid: Id
    var clients: map<Id, Client<D>>
    var current: Option<Id>
    ghost var calls: seq<Call>

    ghost function View(): (b: Bus<D>)
      reads this
    {
      Bus(byte, output, lines, bitcnt, state, stable, devid, clients, current, calls)
    }

    constructor ()
      ensures View() == Reset(map[])
    {
      byte, output, lines, bitcnt, state := 0, false, HIGH, 0, IDLE;
      stable, devid, clients, current, calls := true, Id(0), map[], None, [];
    }

    // A second peripheral with an address already taken is refused.
    method Register(id: Id, client: Client<D>)
      requires View().Valid()
      modifies this
      ensures View() == old(View()).(clients := if id in old(clients) then old(clients) else old(clients)[id := client])
      ensures View().Valid()
    {
      if id in clients {
        return;
      }
      clients := clients[id := client];
    }

    method Invoke(op: Op, data: bv8) returns (result: bv8)
      requires View().Valid()
      modifies this
      ensures (View(), result) == I2cBus.Invoke(old(View()), op, data)
    {
      if current.None? {
        return 0xFF;
      }
      var (client, r) := Answer(clients[current.value], op, data);
      clients := clients[current.value := client];
      calls := calls + [Call(current.value, op, data, r)];
      result := r;
    }

    method ByteDone()
      requires View().Valid()
      modifies this
      ensures View() == I2cBus.ByteDone(old(View()))
    {
      if state == ID {
        state := if byte & 1 == 1 then DATA_OUT else DATA_IN;
        current := if devid in clients then Some(devid) else None;
        if current.Some? {
          var _ := Invoke(START, 0);
        }
      } else if state == DATA_IN {
        var _ := Invoke(WRITE, byte);
      }
    }

    method Finish()
      requires View().Valid()
      modifies this
      ensures View() == I2cBus.Finish(old(View()))
    {
      if current.Some? {
        var _ := Invoke(END, 0);
        current := None;
      }
      state := IDLE;
      byte := 0;
      bitcnt := 0;
      current := None;
    }

    method Begin()
      requires View().Valid()
      modifies this
      ensures View() == I2cBus.Begin(old(View()))
    {
      Finish();
      state := ID;
      var _ := Invoke(START, 0);
    }

    method DataBit(level: bool)
      requires View().Valid()
      modifies this
      ensures View() == I2cBus.DataBit(old(View()), level)
    {
      hide I2cBus.Invoke, I2cBus.ByteDone, ShiftIn, TopBit;
      var data := level;
      if state == DATA_OUT {
        data := false;
      }
      output := TopBit(byte);
      byte := ShiftIn(byte, data);
      bitcnt := bitcnt + 1;
      if state == ID && bitcnt == 7 {
        devid := Id(byte);
      } else if bitcnt == 8 {
        ByteDone();
        if state == DATA_OUT {
          byte := Invoke(READ, 0);
          output := true;
        } else {
          output := false;
        }
      } else if bitcnt == 9 {
        bitcnt := 0;
      }
    }

    method Write(levels: Lines)
      requires View().Valid()
      modifies this
      ensures View() == I2cBus.Write(old(View()), levels)
      ensures View().Valid()
    {
      hide I2cBus.DataBit, I2cBus.Begin, I2cBus.Finish;
      if levels == lines {
        return;
      }
      var changedData := levels.data != lines.data;
      if levels.clk != lines.clk {
        if !levels.clk {
          if stable {
            DataBit(levels.data);
          } else {
            if !levels.data {
              Begin();
            } else {
              Finish();
            }
            stable := true;
          }
        }
      }
      if changedData && levels.clk {
        stable := false;
      }
      lines := levels;
    }

    method Read() returns (level: bool)
      ensures level == Sample(View())
    {
      level := output && lines.data;
    }
  }
}
