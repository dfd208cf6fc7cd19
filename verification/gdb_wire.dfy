/**
  The text level of the remote serial protocol (gdb-server.c): frames and checksums, the
  escaping of binary data, and the hex coding of monitor commands, with the in-place
  algorithms the server runs on its buffers.  "GDB Remote Serial Protocol", section "Overview".
 */
module GdbWire {
  import opened Basics

  const START: Byte := 0x24
  const END: Byte := 0x23
  const RLE: Byte := 0x2a
  const ESCAPE: Byte := 0x7d
  const ACK: Byte := 0x2b
  const NACK: Byte := 0x2d
  const CTRL_C: Byte := 0x03

  // ---------- hex ----------

  function HexDigit(d: nat): (c: Byte)
    requires d < 16
    ensures c != END && c != START
  {
    if d < 10 then 0x30 + d else 0x61 + (d - 10)
  }

  function HexByte(b: Byte): (s: Bytes)
    ensures |s| == 2
  {
    [HexDigit(b / 16), HexDigit(b % 16)]
  }

  // The value of a hex digit, of either case.
  function DigitValue(c: Byte): (v: Option<nat>)
    ensures v.Some? ==> v.value < 16
  {
    if 0x30 <= c <= 0x39 then Some(c - 0x30)
    else if 0x61 <= c <= 0x66 then Some(c - 0x61 + 10)
    else if 0x41 <= c <= 0x46 then Some(c - 0x41 + 10)
    else None
  }

  function HexEncode(raw: Bytes): (s: Bytes)
    ensures |s| == 2 * |raw|
  {
    if raw == [] then [] else HexByte(raw[0]) + HexEncode(raw[1..])
  }

  // What repeated "%02hhx" conversions take: two digits a byte, one at a lone last digit,
  // stopping at the first character that is not a digit.
  function HexDecode(s: Bytes): (raw: Bytes)
  {
    if s == [] || DigitValue(s[0]).None? then []
    else if |s| >= 2 && DigitValue(s[1]).Some? then
      [16 * DigitValue(s[0]).value + DigitValue(s[1]).value] + HexDecode(s[2..])
    else [DigitValue(s[0]).value] + HexDecode(s[1..])
  }

  lemma HexByteValue(b: Byte)
    ensures var s := HexByte(b);
            DigitValue(s[0]) == Some(b / 16) && DigitValue(s[1]) == Some(b % 16)
  {
  }

  // Decoding undoes encoding.
  lemma {:induction false} HexRoundTrip(raw: Bytes)
    ensures HexDecode(HexEncode(raw)) == raw
  {
    if raw != [] {
      HexByteValue(raw[0]);
      HexRoundTrip(raw[1..]);
      var s := HexEncode(raw);
      assert s[2..] == HexEncode(raw[1..]);
      assert raw == [raw[0]] + raw[1..];
    }
  }

  // Pairs of digits, the letters in lower case.
  predicate WellFormed(s: Bytes)
  {
    |s| % 2 == 0 && forall i :: 0 <= i < |s| ==> DigitValue(s[i]).Some? && !(0x41 <= s[i] <= 0x46)
  }

  lemma DigitBack(c: Byte)
    requires DigitValue(c).Some? && !(0x41 <= c <= 0x46)
    ensures HexDigit(DigitValue(c).value) == c
  {
  }

  lemma PairBack(h: nat, l: nat)
    requires h < 16 && l < 16
    ensures HexByte(16 * h + l) == [HexDigit(h), HexDigit(l)]
  {
    assert (16 * h + l) / 16 == h;
  }

  // And encoding undoes decoding.
  lemma {:induction false} HexRoundTripBack(s: Bytes)
    requires WellFormed(s)
    ensures 2 * |HexDecode(s)| == |s| && HexEncode(HexDecode(s)) == s
    decreases |s|
  {
    hide DigitValue, HexDigit, HexByte;
    if s != [] {
      var v, w := DigitValue(s[0]).value, DigitValue(s[1]).value;
      DigitBack(s[0]);
      DigitBack(s[1]);
      PairBack(v, w);
      HexRoundTripBack(s[2..]);
      var raw := HexDecode(s);
      assert raw[0] == 16 * v + w && raw[1..] == HexDecode(s[2..]);
      assert s == [s[0], s[1]] + s[2..];
    }
  }

  // ---------- checksums and frames ----------

  function Checksum(data: Bytes): (sum: Byte)
    decreases |data|
  {
    if data == [] then 0 else (Checksum(data[..|data| - 1]) + data[|data| - 1]) % 256
  }

  function Frame(payload: Bytes): (frame: Bytes)
    ensures |frame| == |payload| + 4
  {
    [START] + payload + [END] + HexByte(Checksum(payload))
  }

  // ---------- escaping ----------

  // Exclusive or with a space flips one bit.
  function Mangle(b: Byte): (m: Byte)
  {
    if b / 32 % 2 == 1 then b - 32 else b + 32
  }

  predicate Special(b: Byte)
  {
    b == START || b == END || b == RLE || b == ESCAPE
  }

  function EscapeByte(b: Byte): (s: Bytes)
    ensures 1 <= |s| <= 2
  {
    if Special(b) then [ESCAPE, Mangle(b)] else [b]
  }

  function Escape(data: Bytes): (s: Bytes)
  {
    if data == [] then [] else EscapeByte(data[0]) + Escape(data[1..])
  }

  function Unescape(s: Bytes): (data: Option<Bytes>)
  {
    if s == [] then Some([])
    else if s[0] != ESCAPE then Prepend(s[0], Unescape(s[1..]))
    else if |s| == 1 then None
    else Prepend(Mangle(s[1]), Unescape(s[2..]))
  }

  function Prepend(b: Byte, data: Option<Bytes>): (r: Option<Bytes>)
  {
    if data.None? then None else Some([b] + data.value)
  }

  lemma MangleTwice(b: Byte)
    ensures Mangle(Mangle(b)) == b
    ensures Special(b) ==> !Special(Mangle(b))
  {
  }

  // Unescaping undoes escaping, and nothing escaped can be taken for framing.
  lemma {:induction false} EscapeRoundTrip(data: Bytes)
    ensures Unescape(Escape(data)) == Some(data)
    ensures forall i :: 0 <= i < |Escape(data)| ==> Escape(data)[i] != START && Escape(data)[i] != END && Escape(data)[i] != RLE
  {
    hide Mangle;
    if data != [] {
      EscapeRoundTrip(data[1..]);
      MangleTwice(data[0]);
      var s := Escape(data);
      assert s[|EscapeByte(data[0])|..] == Escape(data[1..]);
      assert data == [data[0]] + data[1..];
    }
  }

  // ---------- in place ----------

  function Joined(done: Bytes, rest: Option<Bytes>): (r: Option<Bytes>)
  {
    if rest.None? then None else Some(done + rest.value)
  }

  lemma JoinedLaws(done: Bytes, b: Byte, rest: Option<Bytes>)
    ensures Joined(done, Prepend(b, rest)) == Joined(done + [b], rest)
    ensures Joined([], rest) == rest
  {
    if rest.Some? {
      assert done + ([b] + rest.value) == done + [b] + rest.value;
      assert [] + rest.value == rest.value;
    }
  }

  // Storing at or below the reading position, between what is done and what is still to come.
  lemma StoreBehind(s: Bytes, start: nat, dest: nat, src: nat, end: nat, b: Byte)
    requires start <= dest < src <= end <= |s|
    ensures var s' := s[dest := b];
            && s'[start..dest + 1] == s[start..dest] + [b]
            && s'[src..end] == s[src..end]
            && s'[..start] == s[..start] && s'[end..] == s[end..]
  {
  }

  // One step of unescaping: the character at src, then the rest.
  lemma UnescapeStep(s: Bytes, src: nat, end: nat)
    requires src < end <= |s|
    ensures s[src] != ESCAPE ==> Unescape(s[src..end]) == Prepend(s[src], Unescape(s[src + 1..end]))
    ensures s[src] == ESCAPE && src + 1 == end ==> Unescape(s[src..end]).None?
    ensures s[src] == ESCAPE && src + 1 < end ==>
              Unescape(s[src..end]) == Prepend(Mangle(s[src + 1]), Unescape(s[src + 2..end]))
  {
    hide Mangle;
    assert s[src..end][1..] == s[src + 1..end];
    if src + 1 < end {
      assert s[src..end][2..] == s[src + 2..end];
    }
  }

  // Unescape buf[start..start + len] over itself; the packet's new length on success.
  method UnescapeInPlace(buf: array<Byte>, start: nat, len: nat) returns (ok: bool, newLen: nat)
    requires start + len <= buf.Length
    modifies buf
    ensures ok <==> Unescape(old(buf[..])[start..start + len]).Some?
    ensures ok ==> newLen <= len && buf[..][start..start + newLen] == Unescape(old(buf[..])[start..start + len]).value
    ensures buf[..][..start] == old(buf[..])[..start] && buf[..][start + len..] == old(buf[..])[start + len..]
  {
    hide Mangle, Unescape, Prepend, Joined;
    var src, dest, end := start, start, start + len;
    newLen := len;
    ghost var first, s := buf[..], buf[..];
    JoinedLaws([], 0, Unescape(s[start..end]));
    assert s[start..start] == [];
    while src < end
      invariant start <= dest <= src <= end && newLen == len - (src - dest)
      invariant buf[..] == s && |s| == |first| && s[..start] == first[..start] && s[end..] == first[end..]
      invariant Unescape(first[start..end]) == Joined(s[start..dest], Unescape(s[src..end]))
    {
      UnescapeStep(s, src, end);
      if buf[src] == ESCAPE {
        src := src + 1;
        if src >= end {
          NothingJoined(s[start..dest]);
          return false, newLen;
        }
        buf[src] := Mangle(buf[src]);
        newLen := newLen - 1;
        assert buf[..] == s[src := Mangle(s[src])];
        MangledAhead(s, start, dest, src, end, Mangle(s[src]));
        s := buf[..];
      }
      buf[dest] := buf[src];
      assert buf[..] == s[dest := s[src]];
      JoinedLaws(s[start..dest], s[src], Unescape(s[src + 1..end]));
      StoreBehind(s, start, dest, src + 1, end, s[src]);
      s := buf[..];
      dest := dest + 1;
      src := src + 1;
    }
    NothingLeft(s[start..dest]);
    assert s[src..end] == [];
    ok := true;
  }

  lemma NothingJoined(done: Bytes)
    ensures Joined(done, None).None?
  {
  }

  lemma NothingLeft(done: Bytes)
    ensures Joined(done, Unescape([])) == Some(done)
  {
    assert done + [] == done;
  }

  lemma MangledAhead(s: Bytes, start: nat, dest: nat, src: nat, end: nat, b: Byte)
    requires start <= dest <= src < end <= |s|
    ensures var s' := s[src := b];
            && s'[start..dest] == s[start..dest] && s'[src + 1..end] == s[src + 1..end]
            && s'[..start] == s[..start] && s'[end..] == s[end..]
  {
  }

  lemma HexDecodeStep(s: Bytes, i: nat)
    requires i < |s| && DigitValue(s[i]).Some?
    ensures var v := DigitValue(s[i]).value;
            if i + 1 < |s| && DigitValue(s[i + 1]).Some? then
              HexDecode(s[i..]) == [16 * v + DigitValue(s[i + 1]).value] + HexDecode(s[i + 2..])
            else
              HexDecode(s[i..]) == [v] + HexDecode(s[i + 1..])
  {
    hide DigitValue;
    assert s[i..][1..] == s[i + 1..];
    if i + 1 < |s| {
      assert s[i..][2..] == s[i + 2..];
    }
  }

  lemma HexDecodeEnd(s: Bytes, i: nat)
    requires i <= |s| && (i < |s| ==> DigitValue(s[i]).None?)
    ensures HexDecode(s[i..]) == []
  {
  }

  // The buffer part way: decoded up to count, untouched from consumed on.
  predicate Decoding(first: Bytes, s: Bytes, start: nat, len: nat, count: nat, consumed: nat)
    requires start + len <= |first|
  {
    && count <= consumed <= len
    && |s| == |first| && s[..start] == first[..start]
    && s[start + consumed..] == first[start + consumed..]
    && HexDecode(first[start..start + len]) == s[start..start + count] + HexDecode(first[start..start + len][consumed..])
  }

  lemma DecodingStarts(first: Bytes, start: nat, len: nat)
    requires start + len <= |first|
    ensures Decoding(first, first, start, len, 0, 0)
  {
    assert first[start..start + len][0..] == first[start..start + len];
    assert first[start..start] + HexDecode(first[start..start + len]) == HexDecode(first[start..start + len]);
  }

  lemma DecodingMoves(first: Bytes, s: Bytes, start: nat, len: nat, count: nat, consumed: nat, used: nat, v: Byte)
    requires start + len <= |first| && Decoding(first, s, start, len, count, consumed)
    requires consumed < used <= len
    requires HexDecode(first[start..start + len][consumed..]) == [v] + HexDecode(first[start..start + len][used..])
    ensures Decoding(first, s[start + count := v], start, len, count + 1, used)
  {
    hide HexDecode;
    var s' := s[start + count := v];
    StoreBehind(s, start, start + count, start + used, |s|, v);
    assert s[start + used..] == s[start + consumed..][used - consumed..];
    assert first[start + used..] == first[start + consumed..][used - consumed..];
    assert s'[start + used..] == s[start + used..];
  }

  // Decode hex over itself, from the front: at most one byte written for every one read.
  method HexDecodeInPlace(buf: array<Byte>, start: nat, len: nat) returns (count: nat, consumed: nat)
    requires start + len <= buf.Length
    modifies buf
    ensures count <= consumed <= len
    ensures buf[..][start..start + count] == HexDecode(old(buf[..])[start..start + len])
    ensures buf[..][start + consumed..] == old(buf[..])[start + consumed..]
    ensures buf[..][..start] == old(buf[..])[..start]
    ensures consumed < len ==> DigitValue(old(buf[..])[start + consumed]).None?
  {
    hide DigitValue, HexDecode, Decoding;
    count, consumed := 0, 0;
    ghost var first, s := buf[..], buf[..];
    DecodingStarts(first, start, len);
    while consumed < len && DigitValue(buf[start + consumed]).Some?
      invariant consumed <= len && buf[..] == s && Decoding(first, s, start, len, count, consumed)
      invariant count <= consumed
    {
      Untouched(first, s, start, len, count, consumed);
      HexDecodeStep(first[start..start + len], consumed);
      var v := DigitValue(buf[start + consumed]).value;
      var used := consumed + 1;
      if used < len && DigitValue(buf[start + used]).Some? {
        v := 16 * v + DigitValue(buf[start + used]).value;
        used := used + 1;
      }
      DecodingMoves(first, s, start, len, count, consumed, used, v);
      buf[start + count] := v;
      s := s[start + count := v];
      count, consumed := count + 1, used;
    }
    Untouched(first, s, start, len, count, consumed);
    DecodingEnds(first, s, start, len, count, consumed);
  }

  lemma Untouched(first: Bytes, s: Bytes, start: nat, len: nat, count: nat, consumed: nat)
    requires start + len <= |first| && Decoding(first, s, start, len, count, consumed)
    ensures |s| == |first|
    ensures forall i {:trigger s[start + i]} {:trigger first[start..start + len][i]} ::
              consumed <= i < len ==> s[start + i] == first[start..start + len][i] == first[start + i]
  {
    hide HexDecode;
    forall i {:trigger s[start + i]} | consumed <= i < len
      ensures s[start + i] == first[start..start + len][i]
    {
      assert s[start + consumed..][i - consumed] == first[start + consumed..][i - consumed];
    }
  }

  lemma DecodingEnds(first: Bytes, s: Bytes, start: nat, len: nat, count: nat, consumed: nat)
    requires start + len <= |first| && Decoding(first, s, start, len, count, consumed)
    requires consumed < len ==> DigitValue(first[start + consumed]).None?
    ensures s[start..start + count] == HexDecode(first[start..start + len])
    ensures s[start + consumed..] == first[start + consumed..] && s[..start] == first[..start]
  {
    HexDecodeEnd(first[start..start + len], consumed);
    assert s[start..start + count] + [] == s[start..start + count];
  }

  // What "%02x" prints for a char: a char of 0x80 or more is negative and prints as an int.
  function PrintHex(b: Byte): (s: Bytes)
    ensures |s| == 2 || |s| == 8
  {
    if b < 128 then HexByte(b) else [0x66, 0x66, 0x66, 0x66, 0x66, 0x66] + HexByte(b)
  }

  // 7-bit characters, and no others, print as a pair; a higher one takes eight places.
  lemma SevenBitsFitTheirPair(b: Byte)
    ensures PrintHex(b) == HexByte(b) <==> b < 128
    ensures |PrintHex(b)| == if b < 128 then 2 else 8
  {
  }

  // Text written over a buffer at a position.
  function Overwritten(s: Bytes, at: nat, text: Bytes): (r: Bytes)
    requires at + |text| <= |s|
    ensures |r| == |s|
  {
    s[..at] + text + s[at + |text|..]
  }

  lemma OverwriteMore(s: Bytes, at: nat, text: Bytes, i: nat)
    requires at + |text| <= |s| && i < |text|
    ensures Overwritten(s, at, text[..i])[at + i := text[i]] == Overwritten(s, at, text[..i + 1])
  {
  }

  // Print text at a position, with the terminator printf adds.
  method Print(buf: array<Byte>, at: nat, text: Bytes)
    requires at + |text| < buf.Length
    modifies buf
    ensures buf[..] == Overwritten(old(buf[..]), at, text + [0])
  {
    hide Overwritten;
    ghost var s := buf[..];
    var all := text + [0];
    OverwriteNothing(s, at);
    for i := 0 to |all|
      invariant buf[..] == Overwritten(s, at, all[..i])
    {
      OverwriteMore(s, at, all, i);
      buf[at + i] := all[i];
      assert buf[..] == Overwritten(s, at, all[..i])[at + i := all[i]];
    }
    assert all[..|all|] == all;
  }

  lemma OverwriteNothing(s: Bytes, at: nat)
    requires at <= |s|
    ensures Overwritten(s, at, []) == s
  {
  }

  /** One character printed as hex, two places below `next`.  The terminator lands on whatever
      comes after, but what is put back there is the byte that was at `next`. */
  function PrintedBelow(s: Bytes, next: nat, b: Byte): (r: Bytes)
    requires 2 <= next && next - 2 + |PrintHex(b)| < |s|
    ensures |r| == |s|
  {
    Overwritten(s, next - 2, PrintHex(b) + [0])[next - 2 + |PrintHex(b)| := s[next]]
  }

  method PrintBelow(buf: array<Byte>, next: nat, b: Byte)
    requires 2 <= next && next - 2 + |PrintHex(b)| < buf.Length
    modifies buf
    ensures buf[..] == PrintedBelow(old(buf[..]), next, b)
  {
    hide Overwritten;
    ghost var s := buf[..];
    var c := buf[next];
    Print(buf, next - 2, PrintHex(b));
    buf[next - 2 + |PrintHex(b)|] := c;
    assert buf[..] == Overwritten(s, next - 2, PrintHex(b) + [0])[next - 2 + |PrintHex(b)| := c];
  }

  predicate SevenBit(text: Bytes)
  {
    forall i :: 0 <= i < |text| ==> text[i] < 128
  }

  // How many characters are not.
  function Highs(text: Bytes): (n: nat)
    ensures n == 0 <==> SevenBit(text)
    decreases |text|
  {
    if text == [] then 0 else Highs(text[..|text| - 1]) + if text[|text| - 1] < 128 then 0 else 1
  }

  /** Room for the expansion of the first `raw` characters from `start`, the next of which goes
      below `next`: 7-bit characters need none but what they have, others eight places each. */
  predicate Room(s: Bytes, start: nat, raw: nat, next: nat)
  {
    && start + 2 * raw <= next < |s|
    && (SevenBit(s[start..start + raw]) || next + 6 * raw < |s|)
  }

  // One step keeps the characters still to be read, and the room for them.
  lemma RoomKept(s: Bytes, start: nat, raw: nat, next: nat)
    requires raw > 0 && Room(s, start, raw, next)
    ensures var b := s[start + raw - 1];
            && next - 2 + |PrintHex(b)| < |s|
            && var t := PrintedBelow(s, next, b);
               t[..start + raw - 1] == s[..start + raw - 1] && t[..next - 2] == s[..next - 2]
               && Room(t, start, raw - 1, next + |PrintHex(b)| - 4)
  {
    hide HexByte, PrintedBelow;
    var text := s[start..start + raw];
    var b := s[start + raw - 1];
    assert b == text[raw - 1];
    var t := PrintedBelow(s, next, b);
    BelowKept(s, next, b, start + raw - 1);
    assert t[start..start + raw - 1] == t[..start + raw - 1][start..] == s[..start + raw - 1][start..] == text[..raw - 1];
  }

  lemma BelowKept(s: Bytes, next: nat, b: Byte, k: nat)
    requires 2 <= next && k <= next - 2 && next - 2 + |PrintHex(b)| < |s|
    ensures PrintedBelow(s, next, b)[..k] == s[..k] && PrintedBelow(s, next, b)[..next - 2] == s[..next - 2]
  {
    hide PrintHex;
  }

  /** The loop: from the end, each character over what is below the hex of those after it, until
      `stop` are left.  The buffer, and where the next goes. */
  function Expanded(s: Bytes, start: nat, raw: nat, next: nat, stop: nat): (r: (Bytes, nat))
    requires stop <= raw && Room(s, start, raw, next)
    ensures |r.0| == |s| && Room(r.0, start, stop, r.1)
    decreases raw
  {
    if raw == stop then (s, next)
    else
      RoomKept(s, start, raw, next);
      var b := s[start + raw - 1];
      Expanded(PrintedBelow(s, next, b), start, raw - 1, next + |PrintHex(b)| - 4, stop)
  }

  // The loop unrolled once.
  lemma ExpandedStep(s: Bytes, start: nat, raw: nat, next: nat, stop: nat)
    requires stop < raw && Room(s, start, raw, next)
    ensures start + 2 * raw <= next < |s|
    ensures var b := s[start + raw - 1];
            && next - 2 + |PrintHex(b)| < |s|
            && var t := PrintedBelow(s, next, b);
               && t[..start + raw - 1] == s[..start + raw - 1]
               && Room(t, start, raw - 1, next + |PrintHex(b)| - 4)
               && Expanded(s, start, raw, next, stop) == Expanded(t, start, raw - 1, next + |PrintHex(b)| - 4, stop)
  {
    hide PrintedBelow, PrintHex, Room;
    RoomIs(s, start, raw, next);
    RoomKept(s, start, raw, next);
  }

  lemma {:induction false} ExpandedOn(s: Bytes, start: nat, raw: nat, next: nat, stop: nat)
    requires stop <= raw && Room(s, start, raw, next)
    ensures var (t, q) := Expanded(s, start, raw, next, stop);
            Expanded(s, start, raw, next, 0) == Expanded(t, start, stop, q, 0)
    decreases raw
  {
    hide PrintedBelow, PrintHex, Room;
    if raw > stop {
      ExpandedStep(s, start, raw, next, stop);
      ExpandedStep(s, start, raw, next, 0);
      var b := s[start + raw - 1];
      ExpandedOn(PrintedBelow(s, next, b), start, raw - 1, next + |PrintHex(b)| - 4, stop);
    }
  }

  // Every high character moves the rest six places up; what is not yet read stays.
  lemma {:induction false} ExpandedDrifts(s: Bytes, start: nat, raw: nat, next: nat, stop: nat)
    requires stop <= raw && Room(s, start, raw, next)
    ensures start + raw <= |s|
    ensures var (t, q) := Expanded(s, start, raw, next, stop);
            && q == next - 2 * (raw - stop) + 6 * Highs(s[start + stop..start + raw])
            && t[..start + stop] == s[..start + stop]
    decreases raw
  {
    hide PrintedBelow, PrintHex, Room, Highs, SevenBit;
    RoomIs(s, start, raw, next);
    if raw == stop {
      HighsOfNone(s[start + stop..start + raw]);
    } else {
      ExpandedStep(s, start, raw, next, stop);
      hide Expanded;
      var b := s[start + raw - 1];
      var t := PrintedBelow(s, next, b);
      ExpandedDrifts(t, start, raw - 1, next + |PrintHex(b)| - 4, stop);
      SlicesKept(s, t, start, raw, stop);
      HighsOfLast(s[start + stop..start + raw]);
    }
  }

  lemma HighsOfNone(text: Bytes)
    requires |text| == 0
    ensures Highs(text) == 0
  {
  }

  // A character takes two places, and six more if it is high.
  lemma HighsOfLast(text: Bytes)
    requires text != []
    ensures var n, b := |text| - 1, text[|text| - 1];
            6 * Highs(text) == 6 * Highs(text[..n]) + |PrintHex(b)| - 2
  {
    hide HexByte;
  }

  lemma SlicesKept(s: Bytes, t: Bytes, start: nat, raw: nat, stop: nat)
    requires stop < raw && start + raw <= |s| == |t| && t[..start + raw - 1] == s[..start + raw - 1]
    ensures t[start + stop..start + raw - 1] == s[start + stop..start + raw][..raw - stop - 1]
    ensures s[start + stop..start + raw][raw - stop - 1] == s[start + raw - 1]
    ensures t[..start + stop] == t[..start + raw - 1][..start + stop] == s[..start + stop]
  {
    var u := s[..start + raw - 1];
    assert t[start + stop..start + raw - 1] == u[start + stop..] == s[start + stop..start + raw - 1];
    assert u[..start + stop] == s[..start + stop];
  }

  lemma {:induction false} HexEncodeLast(text: Bytes)
    requires text != []
    ensures HexEncode(text) == HexEncode(text[..|text| - 1]) + HexByte(text[|text| - 1])
    decreases |text|
  {
    hide HexByte;
    if |text| > 1 {
      HexEncodeLast(text[1..]);
      assert text[1..][..|text| - 2] == text[..|text| - 1][1..];
    } else {
      assert text[1..] == [];
    }
  }

  lemma PutBack(s: Bytes, next: nat, b: Byte)
    requires 2 <= next < |s| && b < 128
    ensures PrintedBelow(s, next, b) == s[..next - 2] + HexByte(b) + s[next..]
  {
    hide HexByte;
  }

  lemma SevenBitLast(s: Bytes, t: Bytes, start: nat, raw: nat)
    requires 0 < raw && start + raw <= |s| == |t| && t[..start + raw - 1] == s[..start + raw - 1]
    requires SevenBit(s[start..start + raw])
    ensures var text, b := s[start..start + raw], s[start + raw - 1];
            && b == text[raw - 1] && b < 128 && |PrintHex(b)| == 2
            && t[start..start + raw - 1] == text[..raw - 1] && SevenBit(text[..raw - 1])
  {
    hide HexByte;
    SlicesKept(s, t, start, raw, 0);
    assert s[start..start + raw][raw - 1] == s[start + raw - 1];
  }

  // 7-bit characters go as pairs below `next`, and nothing else changes.
  lemma {:induction false} ExpandedSevenBit(s: Bytes, start: nat, raw: nat, next: nat)
    requires Room(s, start, raw, next) && SevenBit(s[start..start + raw])
    ensures start + 2 * raw <= next <= |s|
    ensures Expanded(s, start, raw, next, 0).0 == s[..next - 2 * raw] + HexEncode(s[start..start + raw]) + s[next..]
    decreases raw
  {
    hide PrintedBelow, Room, Expanded, HexEncode, SevenBit, PrintHex;
    RoomIs(s, start, raw, next);
    if raw == 0 {
      NoPairs(s, start, next);
    } else {
      ExpandedStep(s, start, raw, next, 0);
      var t := PrintedBelow(s, next, s[start + raw - 1]);
      SevenBitLast(s, t, start, raw);
      ExpandedSevenBit(t, start, raw - 1, next - 2);
      SevenBitJoined(s, start, raw, next);
    }
  }

  lemma NoPairs(s: Bytes, start: nat, next: nat)
    requires Room(s, start, 0, next)
    ensures next <= |s|
    ensures Expanded(s, start, 0, next, 0).0 == s[..next] + HexEncode(s[start..start]) + s[next..]
  {
    assert s[..next] + [] + s[next..] == s;
  }

  lemma SevenBitJoined(s: Bytes, start: nat, raw: nat, next: nat)
    requires 0 < raw && start + 2 * raw <= next < |s| && s[start + raw - 1] < 128 && |PrintHex(s[start + raw - 1])| == 2
    ensures var text, t := s[start..start + raw], PrintedBelow(s, next, s[start + raw - 1]);
            t[..next - 2 * raw] + HexEncode(text[..raw - 1]) + t[next - 2..]
            == s[..next - 2 * raw] + HexEncode(text) + s[next..]
  {
    hide PrintedBelow, HexByte, HexEncode;
    var text, b := s[start..start + raw], s[start + raw - 1];
    assert b == text[raw - 1];
    PutBack(s, next, b);
    HexEncodeLast(text);
    Regrouped(s, PrintedBelow(s, next, b), next, raw, HexByte(b), HexEncode(text[..raw - 1]));
  }

  lemma Regrouped(s: Bytes, t: Bytes, next: nat, raw: nat, pair: Bytes, rest: Bytes)
    requires 0 < raw && 2 * raw <= next <= |s| && |pair| == 2
    requires t == s[..next - 2] + pair + s[next..]
    ensures t[..next - 2 * raw] + rest + t[next - 2..] == s[..next - 2 * raw] + (rest + pair) + s[next..]
  {
    assert t[next - 2..] == pair + s[next..];
    assert t[..next - 2 * raw] == s[..next - 2 * raw];
  }

  /** Expand buf[start..start + n] into hex over itself, from the end. */
  method HexEncodeInPlace(buf: array<Byte>, start: nat, n: nat)
    requires Room(buf[..], start, n, start + 2 * n)
    modifies buf
    ensures buf[..] == Expanded(old(buf[..]), start, n, start + 2 * n, 0).0
    ensures var text := old(buf[..])[start..start + n];
            SevenBit(text) ==> buf[..] == Overwritten(old(buf[..]), start, HexEncode(text))
  {
    hide PrintedBelow, PrintHex, Room, Overwritten, HexEncode, Expanded, SevenBit;
    ghost var s := buf[..];
    RoomIs(s, start, n, start + 2 * n);
    var raw: nat, next: nat := start + n, start + 2 * n;
    while raw > start
      invariant start <= raw && Room(buf[..], start, raw - start, next)
      invariant Expanded(s, start, n, start + 2 * n, 0) == Expanded(buf[..], start, raw - start, next, 0)
    {
      ghost var t := buf[..];
      ExpandedStep(t, start, raw - start, next, 0);
      raw := raw - 1;
      var b := buf[raw];
      assert b == t[raw];
      PrintBelow(buf, next, b);
      next := next - 2 + |PrintHex(b)| - 2;
    }
    ExpandedNone(buf[..], start, next);
    SevenBitInPlace(s, start, n);
  }

  lemma ExpandedNone(s: Bytes, start: nat, next: nat)
    requires Room(s, start, 0, next)
    ensures Expanded(s, start, 0, next, 0) == (s, next)
  {
  }

  lemma SevenBitInPlace(s: Bytes, start: nat, n: nat)
    requires Room(s, start, n, start + 2 * n)
    ensures start + 2 * n <= |s|
    ensures SevenBit(s[start..start + n]) ==>
              Expanded(s, start, n, start + 2 * n, 0).0 == Overwritten(s, start, HexEncode(s[start..start + n]))
  {
    hide PrintHex, Room, HexEncode, Expanded, SevenBit;
    RoomIs(s, start, n, start + 2 * n);
    if SevenBit(s[start..start + n]) {
      ExpandedSevenBit(s, start, n, start + 2 * n);
    }
  }

  lemma RoomIs(s: Bytes, start: nat, raw: nat, next: nat)
    requires Room(s, start, raw, next)
    ensures start + 2 * raw <= next < |s|
  {
  }

  // ---------- when the expansion is right ----------

  // Where in the hex of a text the digits of a character are.
  lemma {:induction false} HexEncodeAt(text: Bytes, i: nat)
    requires i < |text|
    ensures HexEncode(text)[2 * i] == HexByte(text[i])[0] && HexEncode(text)[2 * i + 1] == HexByte(text[i])[1]
    decreases |text|
  {
    hide HexByte;
    if i > 0 {
      HexEncodeAt(text[1..], i - 1);
    }
  }

  // First digits tell 7-bit characters from others, and all digits are 7-bit themselves.
  lemma DigitsTell(b: Byte)
    ensures HexByte(b)[0] < 128 && HexByte(b)[1] < 128
    ensures HexByte(b)[0] < 0x38 <==> b < 128
    ensures HexByte(b) == [0x66, 0x66] <==> b == 0xff
  {
  }

  // The first character that is not 7-bit.
  function FirstHigh(text: Bytes): (j: nat)
    requires !SevenBit(text)
    ensures j < |text| && text[j] >= 128 && SevenBit(text[..j])
    decreases |text|
  {
    if SevenBit(text[..|text| - 1]) then |text| - 1
    else
      var init := text[..|text| - 1];
      assert init[..FirstHigh(init)] == text[..FirstHigh(init)];
      FirstHigh(init)
  }

  // What is there once the first high character has been printed.
  lemma HighPrinted(t: Bytes, q: nat, b: Byte)
    requires b >= 128 && 2 <= q && q + 6 < |t|
    ensures var u := PrintedBelow(t, q, b);
            u[..q - 2] == t[..q - 2] && forall i :: q - 2 <= i < q + 4 ==> u[i] == 0x66
  {
  }

  // All that follows in the proof of `ExpansionExactly`, from the state at the first high
  // character, `j` from the start, on.
  lemma ExpandedFromHigh(t: Bytes, start: nat, j: nat, q: nat)
    requires Room(t, start, j + 1, q) && t[start + j] >= 128 && SevenBit(t[start..start + j])
    ensures var r := Expanded(t, start, j + 1, q, 0).0;
            && |r| == |t| && q + 6 < |t|
            && r[..q + 4 - 2 * j] == PrintedBelow(t, q, t[start + j])[..q + 4 - 2 * j]
            && r[q + 4 - 2 * j..q + 4] == HexEncode(t[start..start + j])
  {
    hide HexByte, HexEncode, Expanded, PrintedBelow, SevenBit, Room;
    RoomIs(t, start, j + 1, q);
    var b := t[start + j];
    HighTakesEight(b);
    ExpandedStep(t, start, j + 1, q, 0);
    var u := PrintedBelow(t, q, b);
    LowSame(t, u, start, j);
    ExpandedSevenBit(u, start, j, q + 4);
    ThreeParts(u[..q + 4 - 2 * j], HexEncode(u[start..start + j]), u[q + 4..]);
  }

  lemma HighTakesEight(b: Byte)
    requires b >= 128
    ensures |PrintHex(b)| == 8
  {
  }

  lemma ThreeParts(a: Bytes, b: Bytes, c: Bytes)
    ensures (a + b + c)[..|a|] == a && (a + b + c)[|a|..|a| + |b|] == b
  {
  }

  lemma LowSame(s: Bytes, t: Bytes, start: nat, j: nat)
    requires start + j <= |s| == |t| && t[..start + j] == s[..start + j]
    ensures t[start..start + j] == s[start..start + j]
  {
    assert t[start..start + j] == t[..start + j][start..] == s[..start + j][start..];
  }

  // The hex of the text is what stands where the expansion should put it.
  predicate Right(r: Bytes, start: nat, text: Bytes)
    requires start + 2 * |text| <= |r|
  {
    r[start..start + 2 * |text|] == HexEncode(text)
  }

  lemma RightAt(r: Bytes, start: nat, text: Bytes, i: nat)
    requires start + 2 * |text| <= |r| && Right(r, start, text) && i < |text|
    ensures r[start + 2 * i] == HexByte(text[i])[0] && r[start + 2 * i + 1] == HexByte(text[i])[1]
    ensures (r[start + 2 * i] < 0x38 <==> text[i] < 128) && r[start + 2 * i] < 128 && r[start + 2 * i + 1] < 128
  {
    HexEncodeAt(text, i);
    DigitsTell(text[i]);
    assert r[start + 2 * i] == r[start..start + 2 * |text|][2 * i];
    assert r[start + 2 * i + 1] == r[start..start + 2 * |text|][2 * i + 1];
  }

  // A high character at the front runs over what follows it.
  lemma WrongFromFront(s: Bytes, start: nat, t: Bytes, q: nat, r: Bytes, n: nat, h: nat)
    requires 0 < n && start + 2 * n <= |s| == |t| == |r| && q == start + 2 + 6 * h && q + 6 < |t|
    requires t[start] == s[start] >= 128 && (h == 0 <==> SevenBit(s[start + 1..start + n]))
    requires r[..q + 4] == PrintedBelow(t, q, t[start])[..q + 4] && (n == 1 ==> h == 0)
    ensures Right(r, start, s[start..start + n]) <==> s[start..start + n] == [0xff]
  {
    hide PrintedBelow, HexByte;
    var text := s[start..start + n];
    var u := PrintedBelow(t, q, t[start]);
    HighPrinted(t, q, t[start]);
    assert forall i :: 0 <= i < q + 4 ==> r[i] == r[..q + 4][i] == u[i];
    if h == 0 {
      DigitsTell(text[0]);
      assert r[start] == r[start + 1] == 0x66;
      if n == 1 {
        assert text == [text[0]] && HexEncode(text) == HexByte(text[0]);
        assert r[start..start + 2] == [0x66, 0x66];
      } else {
        assert text[1] == s[start + 1..start + n][0];
        if Right(r, start, text) {
          RightAt(r, start, text, 1);
        }
      }
    } else if Right(r, start, text) {
      assert u[start] == u[..q - 2][start] == t[start];
      RightAt(r, start, text, 0);
    }
  }

  // A high character further on leaves a 7-bit digit in its own place, or else itself in another's.
  lemma WrongFurtherOn(s: Bytes, start: nat, r: Bytes, n: nat, j: nat, p: nat, low: Bytes, h: nat)
    requires 0 < j < n && |low| == j && SevenBit(low) && start + 2 * n <= |s| == |r|
    requires p == start + 6 + 6 * h && p + 2 * j <= |r| && s[start + j] >= 128
    requires r[p..p + 2 * j] == HexEncode(low) && (j + start < p ==> r[start + j] == s[start + j])
    ensures !Right(r, start, s[start..start + n])
  {
    hide HexByte, HexEncode, SevenBit;
    var text := s[start..start + n];
    if start + 2 * j >= p {
      var m := j - 3 - 3 * h;
      DigitInPlace(r, p, low, m);
      if Right(r, start, text) {
        RightAt(r, start, text, j);
      }
    } else if Right(r, start, text) {
      RightAt(r, start, text, j / 2);
    }
  }

  lemma DigitInPlace(r: Bytes, p: nat, low: Bytes, m: nat)
    requires m < |low| && SevenBit(low) && p + 2 * |low| <= |r| && r[p..p + 2 * |low|] == HexEncode(low)
    ensures r[p + 2 * m] < 0x38
  {
    hide HexByte, HexEncode;
    HexEncodeAt(low, m);
    DigitsTell(low[m]);
    assert r[p + 2 * m] == r[p..p + 2 * |low|][2 * m];
  }

  /** When the expansion is right: for 7-bit text, for a lone 0xff, and for no other text,
      whatever else was in the buffer. */
  lemma ExpansionExactly(s: Bytes, start: nat, n: nat)
    requires Room(s, start, n, start + 2 * n)
    ensures var text := s[start..start + n];
            Right(Expanded(s, start, n, start + 2 * n, 0).0, start, text) <==> SevenBit(text) || text == [0xff]
  {
    hide Expanded, Room, HexEncode, Highs;
    RoomIs(s, start, n, start + 2 * n);
    var text := s[start..start + n];
    if SevenBit(text) {
      ExpandedSevenBit(s, start, n, start + 2 * n);
      assert s[..start] + HexEncode(text) + s[start + 2 * n..] == s[..start] + (HexEncode(text) + s[start + 2 * n..]);
    } else {
      hide SevenBit, Right;
      var j := FirstHigh(text);
      var (t, q) := Expanded(s, start, n, start + 2 * n, j + 1);
      UpToHigh(s, start, n, j);
      ExpandedFromHigh(t, start, j, q);
      FromHigh(s, start, n, j, t, q, Expanded(t, start, j + 1, q, 0).0);
    }
  }

  // The state in which the first high character is about to be printed.
  ghost predicate AtHigh(s: Bytes, start: nat, n: nat, j: nat, t: Bytes, q: nat)
  {
    && j < n && start + 2 * n <= |s| == |t| && t[..start + j + 1] == s[..start + j + 1]
    && s[start + j] >= 128 && SevenBit(s[start..start + j])
    && q == start + 2 * (j + 1) + 6 * Highs(s[start + j + 1..start + n])
  }

  lemma UpToHigh(s: Bytes, start: nat, n: nat, j: nat)
    requires Room(s, start, n, start + 2 * n) && j < n
    requires s[start..start + n][j] >= 128 && SevenBit(s[start..start + n][..j])
    ensures var (t, q) := Expanded(s, start, n, start + 2 * n, j + 1);
            && AtHigh(s, start, n, j, t, q) && Room(t, start, j + 1, q)
            && t[start + j] >= 128 && SevenBit(t[start..start + j])
            && Expanded(s, start, n, start + 2 * n, 0) == Expanded(t, start, j + 1, q, 0)
  {
    hide Expanded, Room, SevenBit, Highs;
    RoomIs(s, start, n, start + 2 * n);
    ExpandedOn(s, start, n, start + 2 * n, j + 1);
    ExpandedDrifts(s, start, n, start + 2 * n, j + 1);
    var (t, q) := Expanded(s, start, n, start + 2 * n, j + 1);
    assert t[start + j] == t[..start + j + 1][start + j] == s[..start + j + 1][start + j];
    assert t[start..start + j] == t[..start + j + 1][start..start + j] == s[..start + j + 1][start..start + j];
    assert s[start..start + n][..j] == s[start..start + j] == s[..start + j + 1][start..start + j];
  }

  lemma FromHigh(s: Bytes, start: nat, n: nat, j: nat, t: Bytes, q: nat, r: Bytes)
    requires AtHigh(s, start, n, j, t, q) && |r| == |t| && q + 6 < |t|
    requires r[..q + 4 - 2 * j] == PrintedBelow(t, q, t[start + j])[..q + 4 - 2 * j]
    requires r[q + 4 - 2 * j..q + 4] == HexEncode(t[start..start + j])
    ensures Right(r, start, s[start..start + n]) <==> s[start..start + n] == [0xff]
  {
    hide PrintedBelow, HexEncode, Highs, Right;
    var h := Highs(s[start + j + 1..start + n]);
    assert t[start + j] == t[..start + j + 1][start + j] == s[..start + j + 1][start + j];
    if j == 0 {
      assert n == 1 ==> s[start + 1..start + n] == [];
      WrongFromFront(s, start, t, q, r, n, h);
    } else {
      assert t[..start + j] == t[..start + j + 1][..start + j] == s[..start + j + 1][..start + j];
      LowSame(s, t, start, j);
      HighStays(t, q, r, start, j);
      WrongFurtherOn(s, start, r, n, j, q + 4 - 2 * j, t[start..start + j], h);
      assert s[start..start + n][0] == s[start..start + j][0];
    }
  }

  lemma HighStays(t: Bytes, q: nat, r: Bytes, start: nat, j: nat)
    requires 0 < j && start + 2 * j + 2 <= q && q + 6 < |t| == |r| && t[start + j] >= 128
    requires r[..q + 4 - 2 * j] == PrintedBelow(t, q, t[start + j])[..q + 4 - 2 * j]
    ensures start + j < q + 4 - 2 * j ==> r[start + j] == t[start + j]
  {
    hide PrintedBelow;
    HighPrinted(t, q, t[start + j]);
    var u := PrintedBelow(t, q, t[start + j]);
    assert u[start + j] == u[..q - 2][start + j];
    if start + j < q + 4 - 2 * j {
      assert r[start + j] == r[..q + 4 - 2 * j][start + j];
    }
  }
}
