/** The receiver that puts packets together from the chunks a serial read delivers. */
module Reassembler {
  import opened Bytes

  const HEADER_LEN := 4
  const MAX_PACKET_SIZE := 512
  const BUFFER_SIZE := 1024

  /** The bit of the first byte that every packet of the protocol carries. */
  predicate Marked(b: Byte) {
    b / 32 % 2 == 1
  }

  /** A packet starts here: the device type bit is set and the payload is not too long. */
  predicate ValidHeader(s: seq<Byte>)
    requires |s| >= 2
  {
    Marked(s[0]) && HeaderLength(s[0], s[1]) <= MAX_PAYLOAD
  }

  function PacketLen(s: seq<Byte>): (n: nat)
    requires |s| >= 2
    ensures n >= HEADER_LEN
  {
    HeaderLength(s[0], s[1]) + HEADER_LEN
  }

  /** What the resync branch leaves: it moves one byte too few, so the byte before the last
      stands in for the last. */
  function Drop(s: seq<Byte>): (r: seq<Byte>)
    requires |s| > 1
    ensures |r| == |s| - 1
  {
    s[1..|s| - 1] + [s[|s| - 1 - 1]]
  }

  /** Dropping the first byte is right exactly when the last two bytes are the same. */
  lemma DropExactly(s: seq<Byte>)
    requires |s| > 1
    ensures Drop(s) == s[1..] <==> s[|s| - 1] == s[|s| - 2]
  {
  }

  /** The packets taken from a buffer, and the bytes left in it. */
  datatype Parsed = Parsed(packets: seq<seq<Byte>>, rest: seq<Byte>)

  function Parse(s: seq<Byte>): Parsed
    decreases |s|
  {
    if |s| <= HEADER_LEN then Parsed([], s)
    else if !ValidHeader(s) then Parse(Drop(s))
    else if PacketLen(s) > |s| then Parsed([], s)
    else
      var p := Parse(s[PacketLen(s)..]);
      Parsed([s[..PacketLen(s)]] + p.packets, p.rest)
  }

  /** Between calls at most an unfinished packet is kept, whatever bytes came in. */
  lemma {:induction false} RestIsShort(s: seq<Byte>)
    ensures |Parse(s).rest| <= MAX_PAYLOAD + HEADER_LEN - 1
    ensures Parse(Parse(s).rest) == Parsed([], Parse(s).rest)
    decreases |s|
  {
    if |s| > HEADER_LEN {
      if !ValidHeader(s) {
        RestIsShort(Drop(s));
      } else if PacketLen(s) <= |s| {
        RestIsShort(s[PacketLen(s)..]);
      }
    }
  }

  lemma SameHeader(s: seq<Byte>, t: seq<Byte>)
    requires |s| >= 2 && |t| >= 2 && s[0] == t[0] && s[1] == t[1]
    ensures ValidHeader(s) == ValidHeader(t) && PacketLen(s) == PacketLen(t)
  {
  }

  lemma HeaderIs(s: seq<Byte>)
    requires |s| > HEADER_LEN
    ensures ValidHeader(s) <==> Marked(s[0]) && HeaderLength(s[0], s[1]) <= MAX_PAYLOAD
    ensures PacketLen(s) == HeaderLength(s[0], s[1]) + HEADER_LEN
  {
  }

  /** One turn of the loop, on the packets handed on before it. */
  lemma ParseTurn(before: seq<seq<Byte>>, s: seq<Byte>)
    requires |s| > HEADER_LEN
    ensures !ValidHeader(s) ==> Parse(s) == Parse(Drop(s))
    ensures ValidHeader(s) && PacketLen(s) > |s| ==> Parse(s) == Parsed([], s)
    ensures ValidHeader(s) && PacketLen(s) <= |s| ==>
              && before + Parse(s).packets == before + [s[..PacketLen(s)]] + Parse(s[PacketLen(s)..]).packets
              && Parse(s).rest == Parse(s[PacketLen(s)..]).rest
  {
    if ValidHeader(s) && PacketLen(s) <= |s| {
      var x, p := s[..PacketLen(s)], Parse(s[PacketLen(s)..]);
      assert Parse(s) == Parsed([x] + p.packets, p.rest);
      hide Parse;
      assert before + ([x] + p.packets) == before + [x] + p.packets;
    }
  }

  /* Streams of well-formed packets */

  /** Packets one after the other, the last one perhaps cut short. */
  predicate Clean(s: seq<Byte>)
    decreases |s|
  {
    if |s| == 0 then true
    else if |s| == 1 then Marked(s[0])
    else ValidHeader(s) && (PacketLen(s) <= |s| ==> Clean(s[PacketLen(s)..]))
  }

  lemma {:induction false} CleanPrefix(a: seq<Byte>, b: seq<Byte>)
    requires Clean(a + b)
    ensures Clean(a)
    decreases |a|
  {
    hide PacketLen, Marked;
    if |a| >= 2 {
      assert (a + b)[0] == a[0] && (a + b)[1] == a[1];
      SameHeader(a, a + b);
      if PacketLen(a) <= |a| {
        assert (a + b)[PacketLen(a)..] == a[PacketLen(a)..] + b;
        CleanPrefix(a[PacketLen(a)..], b);
      }
    } else if |a| == 1 {
      assert (a + b)[0] == a[0];
    }
  }

  /** Taking the packets out of a first part and going on with what is left and the rest of
      the stream gives the same packets as the whole stream, and the same bytes left over. */
  lemma {:induction false} ParseInParts(a: seq<Byte>, b: seq<Byte>)
    requires Clean(a + b)
    ensures Clean(Parse(a).rest + b)
    ensures Parse(a + b).packets == Parse(a).packets + Parse(Parse(a).rest + b).packets
    ensures Parse(a + b).rest == Parse(Parse(a).rest + b).rest
    decreases |a|
  {
    hide ValidHeader, PacketLen, Drop, Marked;
    if |a| > HEADER_LEN {
      CleanPrefix(a, b);
      assert (a + b)[0] == a[0] && (a + b)[1] == a[1];
      SameHeader(a, a + b);
      var n := PacketLen(a);
      if n <= |a| {
        assert (a + b)[n..] == a[n..] + b && (a + b)[..n] == a[..n];
        ParseInParts(a[n..], b);
      }
    }
  }

  function Flatten(chunks: seq<seq<Byte>>): seq<Byte> {
    if chunks == [] then [] else chunks[0] + Flatten(chunks[1..])
  }

  /** One read added to the bytes kept; a read of nothing does nothing. */
  function Receive(kept: seq<Byte>, chunk: seq<Byte>): Parsed {
    if chunk == [] then Parsed([], kept) else Parse(kept + chunk)
  }

  /** All reads, one after the other. */
  function ReceiveChunks(kept: seq<Byte>, chunks: seq<seq<Byte>>): Parsed
    decreases |chunks|
  {
    if chunks == [] then Parsed([], kept)
    else
      var first := Receive(kept, chunks[0]);
      var p := ReceiveChunks(first.rest, chunks[1..]);
      Parsed(first.packets + p.packets, p.rest)
  }

  predicate Settled(kept: seq<Byte>) {
    Parse(kept) == Parsed([], kept)
  }

  /** Framing does not depend on how the stream was cut into reads: the packets and the
      bytes left over are those of the whole stream taken at once. */
  lemma {:induction false} ChunkingIsInvisible(kept: seq<Byte>, chunks: seq<seq<Byte>>)
    requires Settled(kept) && Clean(kept + Flatten(chunks))
    ensures ReceiveChunks(kept, chunks) == Parse(kept + Flatten(chunks))
    decreases |chunks|
  {
    if chunks == [] {
      assert kept + Flatten(chunks) == kept;
    } else {
      var tail := Flatten(chunks[1..]);
      assert kept + Flatten(chunks) == (kept + chunks[0]) + tail;
      if chunks[0] == [] {
        assert kept + chunks[0] == kept;
        ChunkingIsInvisible(kept, chunks[1..]);
      } else {
        ParseInParts(kept + chunks[0], tail);
        RestIsShort(kept + chunks[0]);
        ChunkingIsInvisible(Parse(kept + chunks[0]).rest, chunks[1..]);
      }
    }
  }

  predicate IsPacket(p: seq<Byte>) {
    |p| >= HEADER_LEN && ValidHeader(p) && |p| == PacketLen(p)
  }

  /** A packet has the bit 0x20 in its first byte, a header of four bytes, and a payload of at most
      256 of the length its header gives. */
  lemma PacketExactly(p: seq<Byte>)
    ensures IsPacket(p) <==>
              && 4 <= |p| <= 260 && p[0] % 64 >= 32
              && (|p| - 4) % 256 == p[1] && (|p| - 4) / 256 == p[0] % 8
  {
  }

  /** A packet in front of a stream comes out first. */
  lemma PacketFirst(p: seq<Byte>, t: seq<Byte>)
    requires IsPacket(p) && |p + t| > HEADER_LEN
    ensures Parse(p + t) == Parsed([p] + Parse(t).packets, Parse(t).rest)
    ensures Clean(t) ==> Clean(p + t)
  {
    hide ValidHeader, PacketLen, Drop;
    var s := p + t;
    assert s[0] == p[0] && s[1] == p[1] && s[..|p|] == p && s[|p|..] == t;
    SameHeader(s, p);
  }

  /** Packets sent one after the other come out as sent: all but a last one without payload,
      which waits for a fifth byte. */
  lemma {:induction false} PacketsComeOut(packets: seq<seq<Byte>>)
    requires forall p :: p in packets ==> IsPacket(p)
    ensures Clean(Flatten(packets))
    ensures var whole := Parse(Flatten(packets));
            if packets != [] && |packets[|packets| - 1]| == HEADER_LEN
            then whole == Parsed(packets[..|packets| - 1], packets[|packets| - 1])
            else whole == Parsed(packets, [])
  {
    hide ValidHeader, PacketLen, Drop;
    if packets != [] {
      var p, rest := packets[0], packets[1..];
      PacketsComeOut(rest);
      assert p + [] == p && IsPacket(p);
      if rest == [] {
        LonePacket(p);
      } else {
        assert IsPacket(rest[0]) && |Flatten(rest)| >= |rest[0]|;
        PacketFirst(p, Flatten(rest));
        hide Clean, Parse, IsPacket;
        assert packets[|packets| - 1] == rest[|rest| - 1];
        assert packets == [p] + rest && packets[..|packets| - 1] == [p] + rest[..|rest| - 1];
      }
    }
  }

  lemma LonePacket(p: seq<Byte>)
    requires IsPacket(p)
    ensures Clean(p) && Parse(p) == if |p| == HEADER_LEN then Parsed([], p) else Parsed([p], [])
  {
    assert p[..|p|] == p && p[|p|..] == [];
  }

  /* Streams with stray bytes */

  /** What the receiver is meant to do: drop the first byte and nothing else. */
  function Ideal(s: seq<Byte>): Parsed
    decreases |s|
  {
    if |s| <= HEADER_LEN then Parsed([], s)
    else if !ValidHeader(s) then Ideal(s[1..])
    else if PacketLen(s) > |s| then Parsed([], s)
    else
      var p := Ideal(s[PacketLen(s)..]);
      Parsed([s[..PacketLen(s)]] + p.packets, p.rest)
  }

  lemma {:induction false} IdealSettles(s: seq<Byte>)
    ensures Ideal(Ideal(s).rest) == Parsed([], Ideal(s).rest)
    decreases |s|
  {
    hide ValidHeader, PacketLen;
    if |s| > HEADER_LEN {
      if !ValidHeader(s) {
        IdealSettles(s[1..]);
      } else if PacketLen(s) <= |s| {
        IdealSettles(s[PacketLen(s)..]);
      }
    }
  }

  /** Done so, a stream gives the same however it is cut, and whatever its bytes are. */
  lemma {:induction false} IdealInParts(a: seq<Byte>, b: seq<Byte>)
    ensures var p := Ideal(Ideal(a).rest + b);
            Ideal(a + b) == Parsed(Ideal(a).packets + p.packets, p.rest)
    decreases |a|
  {
    hide ValidHeader, PacketLen;
    if |a| <= HEADER_LEN {
      assert [] + Ideal(a + b).packets == Ideal(a + b).packets;
    } else {
      assert (a + b)[0] == a[0] && (a + b)[1] == a[1];
      SameHeader(a, a + b);
      var n := PacketLen(a);
      if !ValidHeader(a) {
        assert (a + b)[1..] == a[1..] + b;
        IdealInParts(a[1..], b);
      } else if n <= |a| {
        assert (a + b)[n..] == a[n..] + b && (a + b)[..n] == a[..n];
        IdealInParts(a[n..], b);
        var p, q := Ideal(a[n..]), Ideal(Ideal(a[n..]).rest + b);
        assert [a[..n]] + (p.packets + q.packets) == ([a[..n]] + p.packets) + q.packets;
      } else {
        assert [] + Ideal(a + b).packets == Ideal(a + b).packets;
      }
    }
  }

  /** Each time a byte of s is dropped the last two bytes are the same. */
  predicate Harmless(s: seq<Byte>)
    decreases |s|
  {
    if |s| <= HEADER_LEN then true
    else if !ValidHeader(s) then s[|s| - 1] == s[|s| - 2] && Harmless(s[1..])
    else PacketLen(s) <= |s| ==> Harmless(s[PacketLen(s)..])
  }

  lemma {:induction false} HarmlessIsIdeal(s: seq<Byte>)
    requires Harmless(s)
    ensures Parse(s) == Ideal(s)
    decreases |s|
  {
    hide ValidHeader, PacketLen, Drop;
    if |s| > HEADER_LEN {
      if !ValidHeader(s) {
        DropExactly(s);
        HarmlessIsIdeal(s[1..]);
      } else if PacketLen(s) <= |s| {
        HarmlessIsIdeal(s[PacketLen(s)..]);
      }
    }
  }

  /** No drop on the way through these reads does harm. */
  predicate HarmlessReads(kept: seq<Byte>, chunks: seq<seq<Byte>>)
    decreases |chunks|
  {
    chunks == [] ||
    ((chunks[0] == [] || Harmless(kept + chunks[0])) && HarmlessReads(Receive(kept, chunks[0]).rest, chunks[1..]))
  }

  /** Stray bytes or not, reads without a harmful drop give what the whole stream gives when
      every byte that starts no packet is dropped: the cut does not matter. */
  lemma {:induction false} StrayBytesAreSkipped(kept: seq<Byte>, chunks: seq<seq<Byte>>)
    requires Ideal(kept) == Parsed([], kept) && HarmlessReads(kept, chunks)
    ensures ReceiveChunks(kept, chunks) == Ideal(kept + Flatten(chunks))
    decreases |chunks|
  {
    hide Ideal, Parse, Harmless;
    if chunks == [] {
      assert kept + Flatten(chunks) == kept;
    } else {
      var tail := Flatten(chunks[1..]);
      assert kept + Flatten(chunks) == (kept + chunks[0]) + tail;
      if chunks[0] == [] {
        assert kept + chunks[0] == kept;
      } else {
        HarmlessIsIdeal(kept + chunks[0]);
        IdealInParts(kept + chunks[0], tail);
        IdealSettles(kept + chunks[0]);
      }
      StrayBytesAreSkipped(Receive(kept, chunks[0]).rest, chunks[1..]);
    }
  }

  /** On bytes that are no packets the cut does matter: read at once this packet behind one
      stray byte comes out with its payload overwritten, cut before its last byte it does not. */
  lemma GarbageShowsTheCut()
    ensures ReceiveChunks([], [[0, 0x20, 1, 0, 0, 7]]).packets == [[0x20, 1, 0, 0, 0]]
    ensures ReceiveChunks([], [[0, 0x20, 1, 0, 0], [7]]).packets == [[0x20, 1, 0, 0, 7]]
  {
    StrayByteReadAtOnce();
    StrayByteReadInTwo();
  }

  lemma StrayByteReadAtOnce()
    ensures ReceiveChunks([], [[0, 0x20, 1, 0, 0, 7]]).packets == [[0x20, 1, 0, 0, 0]]
  {
    var whole: seq<Byte> := [0, 0x20, 1, 0, 0, 7];
    var p: seq<Byte> := [0x20, 1, 0, 0, 0];
    assert [] + whole == whole && Drop(whole) == p;
    LonePacket(p);
    assert Parse(whole) == Parse(Drop(whole));
    assert ReceiveChunks([], [whole]).packets == Parse(whole).packets + ReceiveChunks(Parse(whole).rest, []).packets;
  }

  lemma StrayByteReadInTwo()
    ensures ReceiveChunks([], [[0, 0x20, 1, 0, 0], [7]]).packets == [[0x20, 1, 0, 0, 7]]
  {
    var first: seq<Byte> := [0, 0x20, 1, 0, 0];
    var q: seq<Byte> := [0x20, 1, 0, 0, 7];
    assert [] + first == first && Drop(first) == [0x20, 1, 0, 0];
    assert Parse(first) == Parse(Drop(first)) == Parsed([], [0x20, 1, 0, 0]);
    assert [0x20, 1, 0, 0] + [7] == q;
    LonePacket(q);
    assert [first, [7]][1..] == [[7]] && [[7]][1..] == [];
    hide Parse;
    assert ReceiveChunks([0x20, 1, 0, 0], [[7]]).packets == [q];
  }

  /* The receiver */

  class Receiver {
    const recvBuf: array<Byte>
    var recvLen: nat
    /** The packets handed on, oldest first. */
    var delivered: seq<seq<Byte>>

    /** What holds between calls. */
    ghost predicate Valid()
      reads this, recvBuf
    {
      recvBuf.Length == BUFFER_SIZE && recvLen < MAX_PAYLOAD + HEADER_LEN && Settled(Kept())
    }

    ghost function Kept(): seq<Byte>
      requires recvLen <= recvBuf.Length
      reads this, recvBuf
    {
      recvBuf[..recvLen]
    }

    constructor ()
      ensures Valid() && fresh(recvBuf) && recvLen == 0 && delivered == []
    {
      recvBuf := new Byte[BUFFER_SIZE](_ => 0);
      recvLen := 0;
      delivered := [];
    }

    method Reset()
      requires Valid()
      modifies this`recvLen
      ensures Valid() && recvLen == 0
    {
      recvLen := 0;
    }

    /** memmove of the count bytes from the given index to the front of the buffer. */
    method MoveDown(from: nat, count: nat)
      requires from + count <= recvBuf.Length
      modifies recvBuf
      ensures recvBuf[..count] == old(recvBuf[from..from + count])
      ensures recvBuf[count..] == old(recvBuf[count..])
    {
      var i := 0;
      while i < count
        invariant 0 <= i <= count
        invariant forall k :: 0 <= k < i ==> recvBuf[k] == old(recvBuf[from + k])
        invariant forall k :: i <= k < recvBuf.Length ==> recvBuf[k] == old(recvBuf[k])
      {
        recvBuf[i] := recvBuf[from + i];
        i := i + 1;
      }
    }

    /** The resync branch. */
    method DropByte()
      requires HEADER_LEN < recvLen <= recvBuf.Length
      modifies this`recvLen, recvBuf
      ensures recvLen == old(recvLen) - 1 && Kept() == Drop(old(Kept()))
    {
      recvLen := recvLen - 1;
      MoveDown(1, recvLen - 1);
    }

    /** Hands the first n bytes on and drops them from the buffer. */
    method TakePacket(n: nat)
      requires HEADER_LEN <= n <= recvLen <= recvBuf.Length
      modifies this`recvLen, this`delivered, recvBuf
      ensures recvLen == old(recvLen) - n && Kept() == old(Kept())[n..]
      ensures delivered == old(delivered) + [old(Kept())[..n]]
    {
      assert recvBuf[..n] == Kept()[..n];
      delivered := delivered + [recvBuf[..n]];
      MoveDown(n, recvLen - n);
      recvLen := recvLen - n;
    }

    /** One turn of the loop: whether it goes on. */
    method TakeTurn() returns (more: bool)
      requires HEADER_LEN < recvLen <= recvBuf.Length
      modifies this`recvLen, this`delivered, recvBuf
      ensures recvLen <= recvBuf.Length && (more ==> recvLen < old(recvLen))
      ensures !more ==> Parse(Kept()) == Parsed([], Kept()) && Kept() == old(Kept()) && delivered == old(delivered)
      ensures delivered + Parse(Kept()).packets == old(delivered) + Parse(old(Kept())).packets
      ensures Parse(Kept()).rest == Parse(old(Kept())).rest
    {
      hide Parse, ValidHeader, PacketLen, HeaderLength, Drop, Marked;
      ParseTurn(delivered, Kept());
      HeaderIs(Kept());
      assert Kept()[0] == recvBuf[0] && Kept()[1] == recvBuf[1];
      var length := HeaderLength(recvBuf[0], recvBuf[1]);
      if !Marked(recvBuf[0]) || length > MAX_PAYLOAD {
        DropByte();
        return true;
      }
      var packetLen := length + HEADER_LEN;
      if packetLen > recvLen {
        return false;
      }
      TakePacket(packetLen);
      more := true;
    }

    /** The loop that takes packets while more than a header is buffered. */
    method TakePackets()
      requires recvLen <= recvBuf.Length
      modifies this`recvLen, this`delivered, recvBuf
      ensures recvLen <= recvBuf.Length
      ensures var p := Parse(old(Kept()));
              Kept() == p.rest && delivered == old(delivered) + p.packets
    {
      ghost var p := Parse(Kept());
      while recvLen > HEADER_LEN
        invariant recvLen <= recvBuf.Length
        invariant delivered + Parse(Kept()).packets == old(delivered) + p.packets
        invariant Parse(Kept()).rest == p.rest
        decreases recvLen
      {
        hide Parse;
        var more := TakeTurn();
        if !more {
          return;
        }
      }
    }

    /** len is what read returned.  A failed read is not looked for before the copy, which then
        has no bound; nothing is done here in its place.  Otherwise the branch against overflow
        cannot be taken: the bytes kept and a read fit the buffer. */
    method RecvData(buf: array<Byte>, len: int) returns (inside: bool)
      requires Valid() && buf != recvBuf && len <= buf.Length && len <= MAX_PACKET_SIZE
      modifies this`recvLen, this`delivered, recvBuf
      ensures Valid() && (inside <==> 0 <= len)
      ensures !inside ==> Kept() == old(Kept()) && delivered == old(delivered)
      ensures inside ==>
                var p := Receive(old(Kept()), buf[..len]);
                Kept() == p.rest && delivered == old(delivered) + p.packets
    {
      inside := 0 <= len;
      if !inside {
        return;
      }
      if recvLen + len > recvBuf.Length {
        assert false;
      }
      ghost var whole := Kept() + buf[..len];
      CopyInto(recvBuf, recvLen, buf[..len]);
      recvLen := recvLen + len;
      assert Kept() == whole;
      if len < 1 {
        assert Kept() == old(Kept());
        return;
      }
      RestIsShort(whole);
      TakePackets();
    }
  }
}
