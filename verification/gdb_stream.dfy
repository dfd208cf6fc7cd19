/**
  The input side of the debug server: how the byte stream falls into packets, however it is
  cut into reads, and the round trip of a frame from one end of the wire to the other.
 */
module GdbStream {
  import opened Basics
  import opened GdbWire
  import opened GdbProtocol
  import opened GdbSafety

  lemma {:induction false} FeedAppend(w: World, s: Stream, a: Bytes, b: Bytes)
    ensures Feed(w, s, a + b) == Feed(w, Feed(w, s, a), b)
    decreases |a|
  {
    hide Step;
    if a == [] {
      assert a + b == b;
    } else {
      FeedAppend(w, Step(w, s, a[0]), a[1..], b);
      assert (a + b)[1..] == a[1..] + b;
    }
  }

  function Joined(chunks: seq<Bytes>): (bytes: Bytes)
  {
    if chunks == [] then [] else chunks[0] + Joined(chunks[1..])
  }

  function FeedAll(w: World, s: Stream, chunks: seq<Bytes>): (s': Stream)
    decreases |chunks|
  {
    if chunks == [] then s else FeedAll(w, Feed(w, s, chunks[0]), chunks[1..])
  }

  // However a stream is cut up, the packets, replies, closings and the tail are the same.
  lemma {:induction false} ChunkingDoesNotMatter(w: World, s: Stream, chunks: seq<Bytes>)
    ensures FeedAll(w, s, chunks) == Feed(w, s, Joined(chunks))
    decreases |chunks|
  {
    hide Step;
    if chunks != [] {
      FeedAppend(w, s, chunks[0], Joined(chunks[1..]));
      ChunkingDoesNotMatter(w, Feed(w, s, chunks[0]), chunks[1..]);
    }
  }

  /** The server reads only while its connection is open, so whatever comes next, two reads are
      as good as one exactly when the first leaves it open. */
  lemma ReadsAgreeExactly(w: World, s: Stream, a: Bytes)
    requires s.server.open
    ensures Feed(w, s, a).server.open
            <==> forall b: Bytes :: Apply(w, Apply(w, s, Received(a)), Received(b)) == Apply(w, s, Received(a + b))
  {
    hide Step, Feed;
    var t := Feed(w, s, a);
    if t.server.open {
      forall b: Bytes
        ensures Apply(w, Apply(w, s, Received(a)), Received(b)) == Apply(w, s, Received(a + b))
      {
        FeedAppend(w, s, a, b);
      }
    } else {
      StartShows(w, t);
      FeedAppend(w, s, a, [START]);
      assert Apply(w, Apply(w, s, Received(a)), Received([START])) == t;
      assert Apply(w, s, Received(a + [START])) != t;
    }
  }

  // A '$' never goes unnoticed: it starts a packet, or adds to one, or ends it.
  lemma StartShows(w: World, t: Stream)
    ensures Feed(w, t, [START]) != t
  {
    hide Packet, Complete;
    FeedOne(w, t, START);
  }

  // It need not: after a refused '-' one long read keeps what a second read never gets.
  lemma ReadsDifferOnceClosed(w: World)
    ensures var s := Accept(Created(true));
            && Apply(w, s, Received([NACK, START])).input == [NACK, START]
            && Apply(w, Apply(w, s, Received([NACK])), Received([START])).input == [NACK]
  {
    var s := Accept(Created(true));
    var t := Step(w, s, NACK);
    assert t.input == [NACK] && !t.server.open;
    assert [NACK, START][1..] == [START];
    FeedOne(w, s, NACK);
    FeedOne(w, t, START);
    assert Feed(w, s, [NACK, START]) == Feed(w, t, [START]);
    assert Step(w, t, START).input == [NACK, START];
  }

  // ---------- packets in the stream ----------

  // A packet that has started and not ended, or nothing.
  predicate Partial(input: Bytes)
  {
    input == [] || (input[0] == START && !Complete(input))
  }

  lemma {:induction false} FindEndPrefix(input: Bytes, i: nat, k: nat)
    requires i <= k <= |input|
    ensures FindEnd(input[..k], i) == if FindEnd(input, i) <= k then FindEnd(input, i) else k
    decreases k - i
  {
    if i < k && input[i] != END {
      FindEndPrefix(input, i + 1, k);
    }
  }

  lemma PartialPrefix(input: Bytes, k: nat)
    requires Partial(input) && k <= |input|
    ensures Partial(input[..k])
  {
    if k > 0 {
      FindEndPrefix(input, 1, k);
    }
  }

  // A partial packet is only kept.
  lemma {:induction false} PartialKept(w: World, g: Server, input: Bytes)
    requires Partial(input)
    ensures Feed(w, Stream(g, []), input) == Stream(g, input)
    decreases |input|
  {
    hide Complete, Control, Packet;
    if input != [] {
      var init, last := input[..|input| - 1], input[|input| - 1];
      PartialPrefix(input, |input| - 1);
      PartialKept(w, g, init);
      assert input == init + [last];
      FeedAppend(w, Stream(g, []), init, [last]);
      FeedOne(w, Stream(g, init), last);
    }
  }

  lemma FeedOne(w: World, s: Stream, b: Byte)
    ensures Feed(w, s, [b]) == Step(w, s, b)
  {
    hide Step;
  }

  // A whole packet, alone in the stream, is taken as one.
  lemma WholePacketTaken(w: World, g: Server, packet: Bytes)
    requires |packet| >= 4 && packet[0] == START && FindEnd(packet, 1) + 3 == |packet|
    ensures Feed(w, Stream(g, []), packet) == Stream(Packet(w, g, packet), [])
  {
    hide Packet, Control;
    var init, last := packet[..|packet| - 1], packet[|packet| - 1];
    FindEndPrefix(packet, 1, |packet| - 1);
    PartialKept(w, g, init);
    assert packet == init + [last];
    FeedAppend(w, Stream(g, []), init, [last]);
    FeedOne(w, Stream(g, init), last);
  }

  // ---------- frames ----------

  // The checksum characters the server prints are read back as the number printed.
  ghost predicate ScansHex(w: World)
  {
    forall b: Byte {:trigger HexByte(b)} :: w.scan(HexByte(b)[0], HexByte(b)[1]) == b
  }

  // What taking a good packet does: acknowledge it, then handle its body.
  function Taken(w: World, g: Server, body: Bytes): (g': Server)
  {
    if g.acks && g.open then
      var g1 := SendByte(w, g, ACK);
      if g1.open then HandlePacket(w, g1, body) else g1
    else
      HandlePacket(w, g, body)
  }

  lemma {:induction false} FindEndAt(input: Bytes, i: nat, k: nat)
    requires i <= k < |input| && input[k] == END && forall j :: i <= j < k ==> input[j] != END
    ensures FindEnd(input, i) == k
    decreases k - i
  {
    if i < k {
      FindEndAt(input, i + 1, k);
    }
  }

  // A frame around any payload without a '#' in it is accepted, and its body is that payload.
  lemma FrameTaken(w: World, g: Server, payload: Bytes)
    requires ScansHex(w) && forall i :: 0 <= i < |payload| ==> payload[i] != END
    ensures Feed(w, Stream(g, []), Frame(payload)) == Stream(Taken(w, g, payload), [])
  {
    hide HandlePacket, SendByte, Checksum, HexByte;
    var f := Frame(payload);
    var n := |f|;
    FindEndAt(f, 1, |payload| + 1);
    WholePacketTaken(w, g, f);
    assert f[1..n - 3] == payload;
    assert [f[n - 2], f[n - 1]] == HexByte(Checksum(payload));
  }

  /** The round trip.  Binary data written as a reply leaves as one frame; the other end takes
      the frame as one packet, and unescaping the packet gives the data back. */
  lemma FrameRoundTrip(w: World, g: Server, data: Bytes, peer: World, h: Server)
    requires g.open && !(g.acks && g.waiting) && w.net(g.sends)
    requires Fits(Escape(data)) && ScansHex(peer)
    ensures var frame := Frame(Escape(data));
            && Reply(w, g, [Bin(data)]).events == g.events + [Sent(frame, g.acks)]
            && Feed(peer, Stream(h, []), frame) == Stream(Taken(peer, h, Escape(data)), [])
            && Unescape(Escape(data)) == Some(data)
  {
    hide Reply, Frame, Feed, Taken, Escape, Unescape;
    ReplyIs(w, g, [Bin(data)]);
    PayloadOne(Bin(data));
    EscapeRoundTrip(data);
    FrameTaken(peer, h, Escape(data));
  }

  lemma PayloadOne(t: Text)
    ensures Payload([t]) == Spelled(t)
  {
    assert Payload([t][1..]) == [];
  }
}
