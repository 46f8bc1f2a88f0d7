/** Framing and encryption together: what a peer seals with the same algorithm, sent as one
    stream of bytes and read in any pieces. */
module NcpLink {
  import opened Bytes
  import opened SecureLink
  import opened Reassembler

  /** A packet of the protocol whose length still fits its header when it is sealed. */
  predicate Sealable(m: seq<Byte>) {
    && IsPacket(m)
    && HeaderLength(m[0], m[1]) + 9 <= MAX_PAYLOAD && m[1] <= 246
  }

  predicate Framed(x: seq<Byte>) {
    |x| > HEADER_LEN && IsPacket(x)
  }

  /** A packet of the protocol that is sealed is framed exactly when the nine bytes more still
      fit the payload and the low length byte did not carry. */
  lemma SealedIsFramed(c: Ccm, d: Dir, m: seq<Byte>)
    requires IsCcm(c) && ValidDir(d) && IsPacket(m) && Encrypt(c, d, m).packet.Some?
    ensures Framed(Encrypt(c, d, m).packet.value) <==> Sealable(m)
  {
    Layout(c, d, m);
    SealedLengthExactly(m);
    var x := Encrypt(c, d, m).packet.value;
    assert x[0] == x[..2][0] == SetEncrypted(m[0]) && x[1] == x[..2][1] == AddTo(m[1], 9);
    MarkStays(m[0]);
    hide Encrypt, IsCcm, Marked, SetEncrypted;
  }

  lemma MarkStays(b: Byte)
    ensures Marked(SetEncrypted(b)) == Marked(b)
  {
    assert (b + 64) / 32 == b / 32 + 2;
  }

  lemma {:induction false} AllFramed(c: Ccm, d: Dir, msgs: seq<seq<Byte>>)
    requires IsCcm(c) && ValidDir(d) && forall m :: m in msgs ==> |m| >= 2 && Sealable(m)
    ensures forall x :: x in SendAll(c, d, msgs) ==> Framed(x)
    decreases |msgs|
  {
    if msgs != [] {
      assert msgs[0] in msgs;
      var r := Encrypt(c, d, msgs[0]);
      IncreaseIsSuccessor(d);
      if r.packet.Some? {
        SealedIsFramed(c, d, msgs[0]);
        assert Framed(r.packet.value);
      }
      hide Encrypt, Increase, IsCcm, Framed, Sealable;
      AllFramed(c, r.dir, msgs[1..]);
    }
  }

  /** 0, 1, 2, ... */
  function Numbers(from: nat, n: nat): (s: seq<nat>)
    ensures |s| == n && forall i :: 0 <= i < n ==> s[i] == from + i
  {
    seq(n, i => from + i)
  }

  lemma {:induction false} NumbersAccepted(from: nat, n: nat)
    ensures Accepted(Numbers(from, n), from) == Numbers(from, n)
    decreases n
  {
    if n > 0 {
      var s := Numbers(from, n);
      assert s[1..] == Numbers(from + 1, n - 1) && s == [from] + s[1..];
      NumbersAccepted(from + 1, n - 1);
    }
  }

  /** Framed packets come out of the receiver as they were sent, and nothing is left over. */
  lemma FramesComeOut(sent: seq<seq<Byte>>, chunks: seq<seq<Byte>>)
    requires (forall x :: x in sent ==> Framed(x)) && Flatten(chunks) == Flatten(sent)
    ensures ReceiveChunks([], chunks) == Parsed(sent, [])
  {
    PacketsComeOut(sent);
    assert sent != [] ==> sent[|sent| - 1] in sent;
    assert [] + Flatten(chunks) == Flatten(sent);
    assert Settled([]);
    ChunkingIsInvisible([], chunks);
    hide Parse, ReceiveChunks, Flatten, Clean;
  }

  /** Packets that arrive as they were sent are all delivered. */
  lemma InOrderDelivers(c: Ccm, out: Dir, inn: Dir, msgs: seq<seq<Byte>>)
    requires Paired(c, out, inn, msgs) && Value(inn) == Value(out)
    ensures var sent := SendAll(c, out, msgs);
            (forall x :: x in sent ==> |x| >= 11) && ReceiveAll(c, inn, sent) == SealedOf(c, out, msgs)
  {
    hide SendAll, IsCcm, SealedOf, Value, ReceiveAll, Accepted;
    var kept := SealedOf(c, out, msgs);
    var all := Numbers(0, |kept|);
    NumbersAccepted(0, |kept|);
    SessionDelivers(c, out, inn, msgs, 0, all);
    assert Pick(SendAll(c, out, msgs), all) == SendAll(c, out, msgs) && Pick(kept, all) == kept;
  }

  /** Every packet a peer seals in a session, and so every message but those the library fails
      on, comes out of the receiver and of decryption byte for byte and in order, however the
      stream was cut into reads, and nothing is left over. */
  lemma LinkDelivers(c: Ccm, out: Dir, inn: Dir, msgs: seq<seq<Byte>>, chunks: seq<seq<Byte>>)
    requires Paired(c, out, inn, msgs) && Value(inn) == Value(out)
    requires forall m :: m in msgs ==> Sealable(m)
    requires Flatten(chunks) == Flatten(SendAll(c, out, msgs))
    ensures var read := ReceiveChunks([], chunks);
            && (forall x :: x in read.packets ==> |x| >= 11)
            && ReceiveAll(c, inn, read.packets) == SealedOf(c, out, msgs) && read.rest == []
  {
    AllFramed(c, out, msgs);
    hide SendAll, IsCcm, SealedOf, Value, ReceiveAll, ReceiveChunks, Framed, Sealable, Flatten;
    FramesComeOut(SendAll(c, out, msgs), chunks);
    InOrderDelivers(c, out, inn, msgs);
  }
}
