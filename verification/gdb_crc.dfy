/**
  The memory checksum of the debug server (gdb-server.c, qCRC): CRC-32 with the polynomial of
  section 3.2.9 of IEEE 802.3, most significant bit first, register preset to ones.
 */
module GdbCrc {

  // The 32-bit register, and the operations the code uses on it.
  datatype Word = Word(bits: bv32)

  const ONES := Word(0xffff_ffff)
  const ADDRESSES: nat := 0x1_0000_0000_0000_0000

  function Xor(a: Word, b: Word): (r: Word)
  {
    Word(a.bits ^ b.bits)
  }

  function Double(a: Word): (r: Word)
  {
    Word(a.bits << 1)
  }

  predicate Top(a: Word)
  {
    a.bits & 0x8000_0000 == 0x8000_0000
  }

  // The byte at the top of the register.
  function High(val: bv8): (r: Word)
  {
    Word((val as bv32) << 24)
  }

  function Feedback(on: bool): (r: Word)
  {
    Word(if on then 0x04c1_1db7 else 0)
  }

  function Shift(crc: Word): (r: Word)
  {
    Xor(Double(crc), Feedback(Top(crc)))
  }

  function Shifts(crc: Word, k: nat): (r: Word)
    decreases k
  {
    if k == 0 then crc else Shifts(Shift(crc), k - 1)
  }

  // The loop body of the source: fold in a byte, then eight shifts.
  function ByteStep(crc: Word, val: bv8): (r: Word)
  {
    Shifts(Xor(crc, High(val)), 8)
  }

  function Bytes(crc: Word, data: seq<bv8>): (r: Word)
    decreases |data|
  {
    if data == [] then crc else Bytes(ByteStep(crc, data[0]), data[1..])
  }

  // The reference: a shift register fed the message one bit at a time.
  function SerialStep(crc: Word, bit: bool): (r: Word)
  {
    Xor(Double(crc), Feedback(Top(crc) != bit))
  }

  function Serial(crc: Word, bits: seq<bool>): (r: Word)
    decreases |bits|
  {
    if bits == [] then crc else Serial(SerialStep(crc, bits[0]), bits[1..])
  }

  function Bits(val: bv8): (bits: seq<bool>)
    ensures |bits| == 8
  {
    [val & 0x80 != 0, val & 0x40 != 0, val & 0x20 != 0, val & 0x10 != 0,
     val & 0x08 != 0, val & 0x04 != 0, val & 0x02 != 0, val & 0x01 != 0]
  }

  function Message(data: seq<bv8>): (bits: seq<bool>)
  {
    if data == [] then [] else Bits(data[0]) + Message(data[1..])
  }

  lemma XorLaws(a: Word, b: Word, c: Word)
    ensures Xor(Xor(a, b), c) == Xor(Xor(a, c), b)
    ensures Xor(Xor(a, b), b) == a
  {
  }

  lemma DoubleXor(a: Word, b: Word)
    ensures Double(Xor(a, b)) == Xor(Double(a), Double(b))
  {
  }

  lemma TopXor(a: Word, b: Word)
    ensures Top(Xor(a, b)) == (Top(a) != Top(b))
  {
    hide *;
    assert a == Word(a.bits) && b == Word(b.bits);
    TopXorBits(a.bits, b.bits);
  }

  lemma TopXorBits(x: bv32, y: bv32)
    ensures Top(Xor(Word(x), Word(y))) == (Top(Word(x)) != Top(Word(y)))
  {
  }

  // A word folded in ahead of a shift is a bit fed in, and the rest of the word one place on.
  lemma FoldedShift(crc: Word, w: Word)
    ensures Shift(Xor(crc, w)) == Xor(SerialStep(crc, Top(w)), Double(w))
  {
    hide Xor, Double, Top, Feedback;
    TopXor(crc, w);
    DoubleXor(crc, w);
    XorLaws(Double(crc), Double(w), Feedback(Top(crc) != Top(w)));
  }

  // What is left of a byte after k doublings; its top bit is the next message bit.
  function Remaining(val: bv8, k: nat): (w: Word)
  {
    if k == 0 then High(val) else Double(Remaining(val, k - 1))
  }

  lemma RemainingBits(val: bv8)
    ensures forall k :: 0 <= k < 8 ==> Top(Remaining(val, k)) == Bits(val)[k]
    ensures Remaining(val, 8) == Word(0)
  {
    hide Top, Double, High, Bits;
    DoubledHigh(val);
    DoubledBits(val);
    var r1 := Double(Remaining(val, 0));
    var r2 := Double(r1);
    var r3 := Double(r2);
    var r4 := Double(r3);
    var r5 := Double(r4);
    var r6 := Double(r5);
    var r7 := Double(r6);
    assert Remaining(val, 1) == r1;
    assert Remaining(val, 2) == r2;
    assert Remaining(val, 3) == r3;
    assert Remaining(val, 4) == r4;
    assert Remaining(val, 5) == r5;
    assert Remaining(val, 6) == r6;
    assert Remaining(val, 7) == r7;
  }

  lemma DoubledHigh(val: bv8)
    ensures var w := High(val).bits;
            && Double(High(val)) == Word(w << 1)
            && Double(Word(w << 1)) == Word(w << 2)
            && Double(Word(w << 2)) == Word(w << 3)
            && Double(Word(w << 3)) == Word(w << 4)
            && Double(Word(w << 4)) == Word(w << 5)
            && Double(Word(w << 5)) == Word(w << 6)
            && Double(Word(w << 6)) == Word(w << 7)
            && Double(Word(w << 7)) == Word(0)
  {
  }

  lemma DoubledBits(val: bv8)
    ensures var w := High(val).bits;
            [Top(High(val)), Top(Word(w << 1)), Top(Word(w << 2)), Top(Word(w << 3)), Top(Word(w << 4)),
             Top(Word(w << 5)), Top(Word(w << 6)), Top(Word(w << 7))] == Bits(val)
  {
  }

  lemma {:induction false} ShiftsAreSerial(crc: Word, val: bv8, k: nat)
    requires k <= 8
    ensures Shifts(Xor(crc, Remaining(val, k)), 8 - k) == Serial(crc, Bits(val)[k..])
    decreases 8 - k
  {
    hide Shift, SerialStep, Top, Bits, Xor, Double;
    RemainingBits(val);
    if k < 8 {
      FoldedShift(crc, Remaining(val, k));
      ShiftsAreSerial(SerialStep(crc, Bits(val)[k]), val, k + 1);
      assert Bits(val)[k..][1..] == Bits(val)[k + 1..];
    } else {
      XorNothing(crc);
    }
  }

  lemma XorNothing(a: Word)
    ensures Xor(a, Word(0)) == a
  {
  }

  lemma {:induction false} SerialAppend(crc: Word, a: seq<bool>, b: seq<bool>)
    ensures Serial(crc, a + b) == Serial(Serial(crc, a), b)
    decreases |a|
  {
    if a == [] {
      assert a + b == b;
    } else {
      SerialAppend(SerialStep(crc, a[0]), a[1..], b);
      assert (a + b)[1..] == a[1..] + b;
    }
  }

  // Byte at a time and bit at a time compute the same checksum of every message.
  lemma {:induction false} BytesAreSerial(crc: Word, data: seq<bv8>)
    ensures Bytes(crc, data) == Serial(crc, Message(data))
    decreases |data|
  {
    hide Shift, SerialStep, Bits, Xor;
    if data != [] {
      ShiftsAreSerial(crc, data[0], 0);
      assert Bits(data[0])[0..] == Bits(data[0]);
      BytesAreSerial(ByteStep(crc, data[0]), data[1..]);
      SerialAppend(crc, Bits(data[0]), Message(data[1..]));
    }
  }

  // Checksumming a concatenation continues from the first part's value.
  lemma {:induction false} BytesAppend(crc: Word, a: seq<bv8>, b: seq<bv8>)
    ensures Bytes(crc, a + b) == Bytes(Bytes(crc, a), b)
    decreases |a|
  {
    hide ByteStep;
    if a == [] {
      assert a + b == b;
    } else {
      BytesAppend(ByteStep(crc, a[0]), a[1..], b);
      assert (a + b)[1..] == a[1..] + b;
    }
  }

  // The register never forgets: the odd polynomial makes each shift invertible.
  lemma ShiftInjective(x: Word, y: Word)
    requires Shift(x) == Shift(y)
    ensures x == y
  {
    hide Xor, Double, Feedback, Top;
    LowBit(x, Top(x));
    LowBit(y, Top(y));
    SameDouble(x, y, Feedback(Top(x)));
  }

  lemma LowBit(x: Word, on: bool)
    ensures Xor(Double(x), Feedback(on)).bits & 1 == if on then 1 else 0
  {
  }

  lemma SameDouble(x: Word, y: Word, f: Word)
    requires Xor(Double(x), f) == Xor(Double(y), f) && Top(x) == Top(y)
    ensures x == y
  {
  }

  lemma {:induction false} ShiftsInjective(x: Word, y: Word, k: nat)
    requires Shifts(x, k) == Shifts(y, k)
    ensures x == y
    decreases k
  {
    hide Shift;
    if k > 0 {
      ShiftsInjective(Shift(x), Shift(y), k - 1);
      ShiftInjective(x, y);
    }
  }

  lemma {:induction false} BytesInjective(x: Word, y: Word, data: seq<bv8>)
    requires Bytes(x, data) == Bytes(y, data)
    ensures x == y
    decreases |data|
  {
    hide Xor, Shift, High;
    if data != [] {
      BytesInjective(ByteStep(x, data[0]), ByteStep(y, data[0]), data[1..]);
      ShiftsInjective(Xor(x, High(data[0])), Xor(y, High(data[0])), 8);
      XorLaws(x, High(data[0]), x);
      XorLaws(y, High(data[0]), y);
    }
  }

  // Changing any one byte of a range changes its checksum.
  lemma OneByteChangeShows(crc: Word, data: seq<bv8>, i: nat, val: bv8)
    requires i < |data| && data[i] != val
    ensures Bytes(crc, data[i := val]) != Bytes(crc, data)
  {
    hide Xor, Shift, High;
    var a, b := data[..i], data[i + 1..];
    assert data == a + ([data[i]] + b) && data[i := val] == a + ([val] + b);
    BytesAppend(crc, a, [data[i]] + b);
    BytesAppend(crc, a, [val] + b);
    assert ([data[i]] + b)[1..] == b && ([val] + b)[1..] == b;
    var c, old' := Bytes(crc, a), data[i];
    if Bytes(crc, data[i := val]) == Bytes(crc, data) {
      BytesInjective(ByteStep(c, old'), ByteStep(c, val), b);
      ShiftsInjective(Xor(c, High(old')), Xor(c, High(val)), 8);
      SameHigh(c, old', val);
    }
  }

  lemma SameHigh(c: Word, v: bv8, w: bv8)
    ensures Xor(c, High(v)) == Xor(c, High(w)) ==> v == w
  {
  }

  function Address(addr: nat, offset: nat): (a: nat)
  {
    (addr + offset) % ADDRESSES
  }

  // The bytes a range of the target's memory holds; addresses are the host's unsigned long.
  function Range(read: nat -> bv8, addr: nat, len: nat): (data: seq<bv8>)
    ensures |data| == len
  {
    seq(len, i requires 0 <= i < len => read(Address(addr, i)))
  }

  lemma NextAddress(addr: nat, offset: nat)
    ensures Address(Address(addr, offset), 1) == Address(addr, offset + 1)
  {
  }

  lemma FirstAddress(addr: nat)
    requires addr < ADDRESSES
    ensures Address(addr, 0) == addr
  {
  }

  // The qCRC loop, against the bit-serial register.
  method MemoryCrc(read: nat -> bv8, addr: nat, len: nat) returns (crc: Word)
    requires addr < ADDRESSES
    ensures crc == Serial(ONES, Message(Range(read, addr, len)))
  {
    hide Xor, Shift, Serial, Message, Address;
    ghost var data := Range(read, addr, len);
    BytesAreSerial(ONES, data);
    FirstAddress(addr);
    assert data[0..] == data;
    crc := ONES;
    var a, n: nat := addr, len;
    while n > 0
      invariant n <= len
      invariant a == Address(addr, len - n)
      invariant Bytes(crc, data[len - n..]) == Bytes(ONES, data)
    {
      ghost var i := len - n;
      assert data[i] == read(a) && data[i..][1..] == data[i + 1..];
      crc := Xor(crc, High(read(a)));
      crc := UnrolledShifts(crc);
      NextAddress(addr, i);
      a := Address(a, 1);
      n := n - 1;
    }
  }

  method UnrolledShifts(crc: Word) returns (r: Word)
    ensures r == Shifts(crc, 8)
  {
    hide Shift;
    r := Shift(crc);
    assert Shifts(crc, 8) == Shifts(r, 7);
    r := Shift(r);
    assert Shifts(crc, 8) == Shifts(r, 6);
    r := Shift(r);
    assert Shifts(crc, 8) == Shifts(r, 5);
    r := Shift(r);
    assert Shifts(crc, 8) == Shifts(r, 4);
    r := Shift(r);
    r := Shift(r);
    r := Shift(r);
    r := Shift(r);
    assert Shifts(r, 0) == r;
  }
}
