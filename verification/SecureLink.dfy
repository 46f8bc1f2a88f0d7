/** The encrypted link to the NCP: packets carry a 40-bit counter and are sealed by
    AES-CCM (RFC 3610, section 2), which is left abstract. */
module SecureLink {
  import opened Bytes
  import opened Mesh

  const UINT32_MAX := 0xFFFF_FFFF
  const TWO32 := 0x1_0000_0000
  const TWO40 := 0x100_0000_0000

  /** One direction of the link (conn_nonce_t): a counter of 32 and 8 bits and two
      initialization vectors. */
  datatype Dir = Dir(counter: nat, hi: nat, host: seq<Byte>, target: seq<Byte>)

  predicate ValidDir(d: Dir) {
    d.counter < TWO32 && d.hi < 256 && |d.host| == 4 && |d.target| == 4
  }

  /** The 40-bit counter. */
  function Value(d: Dir): nat {
    d.hi * TWO32 + d.counter
  }

  /** increase_counter: the high byte follows when the low word is about to wrap. */
  function Increase(d: Dir): Dir {
    Dir((d.counter + 1) % TWO32, if d.counter == UINT32_MAX then (d.hi + 1) % 256 else d.hi, d.host, d.target)
  }

  lemma IncreaseIsSuccessor(d: Dir)
    requires ValidDir(d)
    ensures ValidDir(Increase(d))
    ensures Value(Increase(d)) == (Value(d) + 1) % TWO40
  {
  }

  function CounterBytes(d: Dir): seq<Byte>
    requires ValidDir(d)
  {
    LittleEndian(d.counter, 4) + [d.hi]
  }

  function Nonce(d: Dir): (s: seq<Byte>)
    requires ValidDir(d)
    ensures |s| == 13
  {
    CounterBytes(d) + d.host + d.target
  }

  /** Four bytes in memory as a number, the lowest first. */
  function Word(b0: int, b1: int, b2: int, b3: int): int {
    b0 + 0x100 * b1 + 0x1_0000 * b2 + 0x100_0000 * b3
  }

  /** The counter as it lies in memory: four bytes and the high one. */
  predicate CounterAt(s: seq<Byte>, at: nat, d: Dir) {
    && at + 5 <= |s|
    && Word(s[at], s[at + 1], s[at + 2], s[at + 3]) == d.counter
    && s[at + 4] == d.hi
  }

  /** The nonce as the struct of the direction lies in memory. */
  predicate NonceOf(s: seq<Byte>, d: Dir) {
    |s| == 13 && CounterAt(s, 0, d) && s[5..9] == d.host && s[9..13] == d.target
  }

  /** The bytes of a counter are determined. */
  lemma CounterBytesExactly(s: seq<Byte>, d: Dir)
    requires ValidDir(d)
    ensures s == CounterBytes(d) <==> |s| == 5 && CounterAt(s, 0, d)
  {
    var b := CounterBytes(d);
    FourBytes(d.counter);
    if |s| == 5 && CounterAt(s, 0, d) {
      FourBytesOnce(s[0], s[1], s[2], s[3], b[0], b[1], b[2], b[3]);
    }
  }

  lemma FourBytes(v: nat)
    requires v < TWO32
    ensures var b := LittleEndian(v, 4);
            Word(b[0], b[1], b[2], b[3]) == v
  {
    var b := LittleEndian(v, 4);
    Pow256Of4();
    LittleEndianBack(v, 4);
    assert b[1..][1..] == b[2..] && b[2..][1..] == b[3..] && b[3..][1..] == [];
    var b1: int, b2: int, b3: int := b[1], b[2], b[3];
    assert FromLittleEndian(b[3..]) == b3;
    assert FromLittleEndian(b[2..]) == b2 + 256 * b3;
    assert FromLittleEndian(b[1..]) == b1 + 256 * (b2 + 256 * b3);
  }

  lemma FourBytesOnce(a: Byte, b: Byte, c: Byte, d: Byte, a': Byte, b': Byte, c': Byte, d': Byte)
    requires Word(a, b, c, d) == Word(a', b', c', d')
    ensures a == a' && b == b' && c == c' && d == d'
  {
  }

  /** The nonce is the counter followed by both initialization vectors, and nothing else is. */
  lemma NonceExactly(s: seq<Byte>, d: Dir)
    requires ValidDir(d)
    ensures s == Nonce(d) <==> NonceOf(s, d)
  {
    var n := Nonce(d);
    CounterBytesExactly(CounterBytes(d), d);
    assert n[..5] == CounterBytes(d) && n[5..9] == d.host && n[9..13] == d.target;
    if NonceOf(s, d) {
      CounterBytesExactly(s[..5], d);
      assert s == s[..5] + s[5..9] + s[9..13];
    }
  }

  /** Two directions have the same nonce exactly when their counters and vectors agree. */
  lemma NoncesDiffer(d: Dir, d': Dir)
    requires ValidDir(d) && ValidDir(d')
    ensures Nonce(d) == Nonce(d') <==> Value(d) == Value(d') && d.host == d'.host && d.target == d'.target
  {
    NonceExactly(Nonce(d), d);
    NonceExactly(Nonce(d'), d');
    assert Value(d) == Value(d') ==> d.counter == d'.counter && d.hi == d'.hi;
    hide Nonce;
  }

  /** AES-CCM under the key of the session, with a 4-byte tag: from nonce, additional data
      and text to sealed text and back; None when the library reports a failure. */
  datatype Ccm = Ccm(seal: (seq<Byte>, seq<Byte>, seq<Byte>) -> Option<seq<Byte>>,
                     open: (seq<Byte>, seq<Byte>, seq<Byte>) -> Option<seq<Byte>>)

  const TAG_LEN := 4

  ghost predicate IsCcm(c: Ccm) {
    && (forall n, a, p :: c.seal(n, a, p).Some? ==>
          |c.seal(n, a, p).value| == |p| + TAG_LEN && c.open(n, a, c.seal(n, a, p).value) == Some(p))
    && (forall n, a, x :: c.open(n, a, x).Some? ==> |x| == |c.open(n, a, x).value| + TAG_LEN)
  }

  function SetEncrypted(b: Byte): Byte {
    if b / 64 % 2 == 1 then b else b + 64
  }

  function ClearEncrypted(b: Byte): Byte {
    if b / 64 % 2 == 1 then b - 64 else b
  }

  /** Addition in a byte, without a carry. */
  function AddTo(b: Byte, k: nat): Byte {
    (b + k) % 256
  }

  /** A packet and the state of its direction after a call; no packet after a failure. */
  datatype Result = Result(packet: Option<seq<Byte>>, dir: Dir)

  /** sl_security_encrypt_packet */
  function Encrypt(c: Ccm, d: Dir, src: seq<Byte>): Result
    requires ValidDir(d) && |src| >= 2
  {
    var header := [SetEncrypted(src[0]), AddTo(src[1], 9)];
    match c.seal(Nonce(d), header + CounterBytes(d), src[2..])
    case None => Result(None, d)
    case Some(x) => Result(Some(header + x + CounterBytes(d)), Increase(d))
  }

  lemma CounterFits(s: seq<Byte>)
    requires |s| == 4
    ensures FromLittleEndian(s) < TWO32
  {
    FromLittleEndianBack(s);
    Pow256Of4();
  }

  lemma Pow256Of4()
    ensures Pow256(4) == TWO32
  {
  }

  predicate Stale(d: Dir, counter: nat, hi: nat) {
    !(hi > d.hi || (hi == d.hi && counter >= d.counter))
  }

  /** sl_security_decrypt_packet, on a packet long enough for header, tag and counter. */
  function Decrypt(c: Ccm, d: Dir, src: seq<Byte>): Result
    requires ValidDir(d) && |src| >= 11
  {
    var n := |src| - 9;
    var counter := FromLittleEndian(src[n + 4..n + 8]);
    var hi := src[n + 8];
    CounterFits(src[n + 4..n + 8]);
    var at := Dir(counter, hi, d.host, d.target);
    if Stale(d, counter, hi) then Result(None, d)
    else
      match c.open(Nonce(at), src[..2] + CounterBytes(at), src[2..n + 4])
      case None => Result(None, d)
      case Some(p) => Result(Some([ClearEncrypted(src[0]), AddTo(src[1], 247)] + p), Increase(at))
  }

  /** The test against replay compares 40-bit counters. */
  lemma StaleExactly(d: Dir, at: Dir)
    requires ValidDir(d) && ValidDir(at)
    ensures Stale(d, at.counter, at.hi) <==> Value(at) < Value(d)
  {
  }

  /** The packet a direction seals, as the other end takes it apart. */
  lemma Layout(c: Ccm, d: Dir, src: seq<Byte>)
    requires IsCcm(c) && ValidDir(d) && |src| >= 2 && Encrypt(c, d, src).packet.Some?
    ensures var x := Encrypt(c, d, src).packet.value;
            var n := |x| - 9;
            && |x| == |src| + 9
            && x[..2] == [SetEncrypted(src[0]), AddTo(src[1], 9)]
            && Some(x[2..n + 4]) == c.seal(Nonce(d), x[..2] + CounterBytes(d), src[2..])
            && FromLittleEndian(x[n + 4..n + 8]) == d.counter && x[n + 8] == d.hi
  {
    var x := Encrypt(c, d, src).packet.value;
    var n := |x| - 9;
    var header := [SetEncrypted(src[0]), AddTo(src[1], 9)];
    var sealed := c.seal(Nonce(d), header + CounterBytes(d), src[2..]).value;
    assert x == header + sealed + LittleEndian(d.counter, 4) + [d.hi];
    assert x[..2] == header;
    assert x[2..n + 4] == sealed;
    assert x[n + 4..n + 8] == LittleEndian(d.counter, 4);
    Pow256Of4();
    LittleEndianBack(d.counter, 4);
  }

  /** With the same key and initialization vectors a packet is accepted exactly when its
      counter is not behind, and then comes out with the encrypted bit cleared and every
      other bit as given to the sender; a packet that is behind changes nothing. */
  lemma PacketRoundTrip(c: Ccm, out: Dir, inn: Dir, src: seq<Byte>)
    requires IsCcm(c) && ValidDir(out) && ValidDir(inn) && inn.host == out.host && inn.target == out.target
    requires |src| >= 2 && Encrypt(c, out, src).packet.Some?
    ensures var x := Encrypt(c, out, src).packet.value;
            && |x| >= 11
            && Decrypt(c, inn, x) ==
                 if Value(inn) <= Value(out) then Result(Some([ClearEncrypted(src[0])] + src[1..]), Increase(out))
                 else Result(None, inn)
  {
    Layout(c, out, src);
    StaleExactly(inn, out);
    HeaderBack(src[0], src[1]);
    hide Encrypt, SetEncrypted, ClearEncrypted, AddTo, Stale, FromLittleEndian, Nonce, CounterBytes, Value;
    var x := Encrypt(c, out, src).packet.value;
    assert x[0] == x[..2][0] && x[1] == x[..2][1];
    if Value(inn) <= Value(out) {
      assert [ClearEncrypted(x[0]), AddTo(x[1], 247)] == [ClearEncrypted(src[0]), src[1]];
      assert [ClearEncrypted(src[0]), src[1]] + src[2..] == [ClearEncrypted(src[0])] + src[1..];
    }
  }

  lemma HeaderBack(b0: Byte, b1: Byte)
    ensures ClearEncrypted(SetEncrypted(b0)) == ClearEncrypted(b0) && AddTo(AddTo(b1, 9), 247) == b1
  {
  }

  /** Byte for byte the packet comes back exactly when its encrypted bit was clear. */
  lemma ExactBytesExactly(src: seq<Byte>)
    requires |src| >= 2
    ensures [ClearEncrypted(src[0])] + src[1..] == src <==> src[0] / 64 % 2 == 0
  {
  }

  /** The header of a sealed packet gives its length exactly when adding the tag and the
      counter does not overflow the low length byte: there is no carry. */
  lemma SealedLengthExactly(src: seq<Byte>)
    requires |src| >= 2
    ensures HeaderLength(SetEncrypted(src[0]), AddTo(src[1], 9)) == HeaderLength(src[0], src[1]) + 9 <==> src[1] <= 246
  {
  }

  /** The two bytes with the encrypted bit as said, the other bits and the length byte those of
      b0 and b1, but for so many more in the length, without a carry. */
  predicate HeaderOf(s: seq<Byte>, encrypted: bool, b0: int, b1: int, more: int) {
    && |s| >= 2
    && (s[0] / 64 % 2 == 1 <==> encrypted) && s[0] % 64 == b0 % 64 && s[0] / 128 == b0 / 128
    && s[1] == (b1 + more) % 256
  }

  lemma HeaderSealed(s: seq<Byte>, b0: Byte, b1: Byte)
    requires |s| == 2
    ensures HeaderOf(s, true, b0, b1, 9) <==> s == [SetEncrypted(b0), AddTo(b1, 9)]
  {
    BitsOf(s[0], b0);
  }

  lemma HeaderOpened(s: seq<Byte>, b0: Byte, b1: Byte)
    requires |s| == 2
    ensures HeaderOf(s, false, b0, b1, -9) <==> s == [ClearEncrypted(b0), AddTo(b1, 247)]
  {
    BitsOf(s[0], b0);
  }

  lemma BitsOf(a: Byte, b: Byte)
    ensures a / 64 % 2 == 1 && a % 64 == b % 64 && a / 128 == b / 128 <==> a == SetEncrypted(b)
    ensures a / 64 % 2 != 1 && a % 64 == b % 64 && a / 128 == b / 128 <==> a == ClearEncrypted(b)
  {
  }

  /** Nothing else goes over the line: the packet is the header with the encrypted bit set and
      nine more in its length byte, what the library seals under the nonce of the direction with
      header and counter as additional data, and the counter. */
  lemma SealedExactly(c: Ccm, d: Dir, src: seq<Byte>, nonce: seq<Byte>, data: seq<Byte>)
    requires ValidDir(d) && |src| >= 2 && NonceOf(nonce, d)
    requires |data| == 7 && HeaderOf(data, true, src[0], src[1], 9) && CounterAt(data, 2, d)
    ensures Encrypt(c, d, src) ==
              match c.seal(nonce, data, src[2..])
              case None => Result(None, d)
              case Some(x) => Result(Some(data[..2] + x + data[2..]), Increase(d))
  {
    NonceExactly(nonce, d);
    CounterBytesExactly(data[2..], d);
    assert HeaderOf(data[..2], true, src[0], src[1], 9);
    HeaderSealed(data[..2], src[0], src[1]);
    hide HeaderOf, SetEncrypted, AddTo;
    assert data == data[..2] + data[2..];
  }

  /** A packet is opened under the counter it carries: a direction takes it when that is not
      behind and the library opens it, and then goes on behind it. */
  lemma OpenedExactly(c: Ccm, d: Dir, src: seq<Byte>, at: Dir, nonce: seq<Byte>)
    requires ValidDir(d) && |src| >= 11 && ValidDir(at) && at.host == d.host && at.target == d.target
    requires CounterAt(src, |src| - 5, at) && NonceOf(nonce, at)
    ensures var p := c.open(nonce, src[..2] + src[|src| - 5..], src[2..|src| - 5]);
            var r := Decrypt(c, d, src);
            if Value(at) < Value(d) || p.None? then r == Result(None, d)
            else
              && r.packet.Some? && r.dir == Increase(at) && r.packet.value[2..] == p.value
              && HeaderOf(r.packet.value, false, src[0], src[1], -9)
  {
    var n := |src| - 9;
    var tail := src[|src| - 5..];
    CounterBytesExactly(tail, at);
    NonceExactly(nonce, at);
    StaleExactly(d, at);
    assert src[n + 4..n + 8] == tail[..4] == LittleEndian(at.counter, 4) && src[n + 8] == tail[4];
    Pow256Of4();
    LittleEndianBack(at.counter, 4);
    var header := [ClearEncrypted(src[0]), AddTo(src[1], 247)];
    HeaderOpened(header, src[0], src[1]);
    hide HeaderOf, LittleEndian, FromLittleEndian, Nonce, NonceOf, CounterAt, ClearEncrypted, AddTo;
    var r := Decrypt(c, d, src);
    if r.packet.Some? {
      var p := c.open(nonce, src[..2] + tail, src[2..n + 4]).value;
      assert r.packet.value == header + p && r.packet.value[2..] == p;
      SameHeader(header, p, src[0], src[1]);
    }
  }

  lemma SameHeader(h: seq<Byte>, p: seq<Byte>, b0: Byte, b1: Byte)
    requires |h| == 2 && HeaderOf(h, false, b0, b1, -9)
    ensures HeaderOf(h + p, false, b0, b1, -9)
  {
  }

  /* A whole session */

  /** The packets sent for the messages, in order. */
  function SendAll(c: Ccm, d: Dir, msgs: seq<seq<Byte>>): seq<seq<Byte>>
    requires ValidDir(d) && forall m :: m in msgs ==> |m| >= 2
    decreases |msgs|
  {
    if msgs == [] then []
    else
      var r := Encrypt(c, d, msgs[0]);
      IncreaseIsSuccessor(d);
      (if r.packet.Some? then [r.packet.value] else []) + SendAll(c, r.dir, msgs[1..])
  }

  /** The messages a packet is sent for: those the library does not fail on. */
  function SealedOf(c: Ccm, d: Dir, msgs: seq<seq<Byte>>): (kept: seq<seq<Byte>>)
    requires ValidDir(d) && forall m :: m in msgs ==> |m| >= 2
    ensures |kept| <= |msgs| && forall i :: 0 <= i < |kept| ==> |kept[i]| >= 2
    decreases |msgs|
  {
    if msgs == [] then []
    else
      var r := Encrypt(c, d, msgs[0]);
      IncreaseIsSuccessor(d);
      (if r.packet.Some? then [msgs[0]] else []) + SealedOf(c, r.dir, msgs[1..])
  }

  /** The library fails on none of them. */
  predicate AllSeal(c: Ccm, d: Dir, msgs: seq<seq<Byte>>)
    requires ValidDir(d) && forall m :: m in msgs ==> |m| >= 2
  {
    SealedOf(c, d, msgs) == msgs
  }

  lemma {:induction false} SealedArePart(c: Ccm, d: Dir, msgs: seq<seq<Byte>>)
    requires ValidDir(d) && forall m :: m in msgs ==> |m| >= 2
    ensures forall m :: m in SealedOf(c, d, msgs) ==> m in msgs
    decreases |msgs|
  {
    if msgs != [] {
      IncreaseIsSuccessor(d);
      SealedArePart(c, Encrypt(c, d, msgs[0]).dir, msgs[1..]);
      hide Encrypt;
    }
  }

  lemma FirstSealed(c: Ccm, d: Dir, m: seq<Byte>, rest: seq<seq<Byte>>)
    requires ValidDir(d) && |m| >= 2 && forall x :: x in rest ==> |x| >= 2
    ensures var r := Encrypt(c, d, m);
            && ValidDir(r.dir) && (forall x :: x in [m] + rest ==> |x| >= 2)
            && SealedOf(c, d, [m] + rest) == (if r.packet.Some? then [m] else []) + SealedOf(c, r.dir, rest)
            && SendAll(c, d, [m] + rest) == (if r.packet.Some? then [r.packet.value] else []) + SendAll(c, r.dir, rest)
            && (r.packet.None? ==> r.dir == d)
  {
    assert ([m] + rest)[1..] == rest;
    IncreaseIsSuccessor(d);
  }

  /** A message that fails to be sealed leaves no trace: the same packets are sent without it. */
  lemma {:induction false} SealedAlone(c: Ccm, d: Dir, msgs: seq<seq<Byte>>)
    requires ValidDir(d) && forall m :: m in msgs ==> |m| >= 2
    ensures var kept := SealedOf(c, d, msgs);
            AllSeal(c, d, kept) && SendAll(c, d, kept) == SendAll(c, d, msgs)
    decreases |msgs|
  {
    if msgs == [] {
    } else {
      hide Encrypt, ValidDir, SealedOf, SendAll, AllSeal;
      var m, tail := msgs[0], msgs[1..];
      var r := Encrypt(c, d, m);
      assert msgs == [m] + tail;
      FirstSealed(c, d, m, tail);
      SealedAlone(c, r.dir, tail);
      var rest := SealedOf(c, r.dir, tail);
      if r.packet.Some? {
        FirstSealed(c, d, m, rest);
        SealedOneMore(c, d, m, rest);
      } else {
        assert [] + rest == rest && [] + SendAll(c, d, tail) == SendAll(c, d, tail);
      }
    }
  }

  lemma SealedOneMore(c: Ccm, d: Dir, m: seq<Byte>, rest: seq<seq<Byte>>)
    requires ValidDir(d) && |m| >= 2 && forall x :: x in rest ==> |x| >= 2
    ensures var r := Encrypt(c, d, m);
            && ValidDir(r.dir) && (forall x :: x in [m] + rest ==> |x| >= 2)
            && (r.packet.Some? && AllSeal(c, r.dir, rest) ==> AllSeal(c, d, [m] + rest))
  {
    FirstSealed(c, d, m, rest);
    hide Encrypt, ValidDir, SealedOf;
  }

  /** What decrypting the packets in their order of arrival delivers. */
  function ReceiveAll(c: Ccm, d: Dir, packets: seq<seq<Byte>>): seq<seq<Byte>>
    requires ValidDir(d) && forall x :: x in packets ==> |x| >= 11
    decreases |packets|
  {
    if packets == [] then []
    else
      var r := Decrypt(c, d, packets[0]);
      DecryptValid(c, d, packets[0]);
      (if r.packet.Some? then [r.packet.value] else []) + ReceiveAll(c, r.dir, packets[1..])
  }

  lemma DecryptValid(c: Ccm, d: Dir, src: seq<Byte>)
    requires ValidDir(d) && |src| >= 11
    ensures ValidDir(Decrypt(c, d, src).dir)
    ensures Decrypt(c, d, src).dir.host == d.host && Decrypt(c, d, src).dir.target == d.target
  {
  }

  /** Of the packets arriving, by their numbers, those not behind the last one taken. */
  function Accepted(arrivals: seq<nat>, next: nat): seq<nat> {
    if arrivals == [] then []
    else if arrivals[0] >= next then [arrivals[0]] + Accepted(arrivals[1..], arrivals[0] + 1)
    else Accepted(arrivals[1..], next)
  }

  lemma {:induction false} AcceptedArrived(arrivals: seq<nat>, next: nat, k: nat)
    requires k in Accepted(arrivals, next)
    ensures k >= next && k in arrivals
    decreases |arrivals|
  {
    var next' := if arrivals[0] >= next then arrivals[0] + 1 else next;
    if k in Accepted(arrivals[1..], next') {
      AcceptedArrived(arrivals[1..], next', k);
    }
  }

  /** In order and at most once: the numbers taken ascend. */
  lemma {:induction false} AcceptedAscend(arrivals: seq<nat>, next: nat, i: nat, j: nat)
    requires i < j < |Accepted(arrivals, next)|
    ensures Accepted(arrivals, next)[i] < Accepted(arrivals, next)[j]
    decreases |arrivals|
  {
    if arrivals[0] < next {
      AcceptedAscend(arrivals[1..], next, i, j);
    } else {
      var rest := Accepted(arrivals[1..], arrivals[0] + 1);
      assert Accepted(arrivals, next) == [arrivals[0]] + rest;
      if i > 0 {
        AcceptedAscend(arrivals[1..], arrivals[0] + 1, i - 1, j - 1);
      } else {
        AcceptedArrived(arrivals[1..], arrivals[0] + 1, rest[j - 1]);
      }
    }
  }

  /** No packet is left out that arrived ahead of all packets before it. */
  lemma {:induction false} AcceptsLeader(arrivals: seq<nat>, next: nat, i: nat)
    requires i < |arrivals| && arrivals[i] >= next && forall j :: 0 <= j < i ==> arrivals[j] < arrivals[i]
    ensures arrivals[i] in Accepted(arrivals, next)
    decreases i
  {
    if i > 0 {
      AcceptsLeader(arrivals[1..], if arrivals[0] >= next then arrivals[0] + 1 else next, i - 1);
    }
  }

  /** The direction k packets on. */
  function Ahead(d: Dir, k: nat): Dir
    requires ValidDir(d)
    decreases k
  {
    if k == 0 then d
    else
      IncreaseIsSuccessor(d);
      Ahead(Increase(d), k - 1)
  }

  /** The counter of the packet k on. */
  lemma {:induction false} AheadWraps(d: Dir, k: nat)
    requires ValidDir(d)
    ensures ValidDir(Ahead(d, k)) && Value(Ahead(d, k)) == (Value(d) + k) % TWO40
    ensures Ahead(d, k).host == d.host && Ahead(d, k).target == d.target
    decreases k
  {
    IncreaseIsSuccessor(d);
    hide Value;
    if k > 0 {
      AheadWraps(Increase(d), k - 1);
      hide Increase;
      OneMore(Value(d), k);
    } else {
      ValueBelow(d);
    }
  }

  lemma OneMore(v: nat, k: nat)
    requires k > 0
    ensures ((v + 1) % TWO40 + (k - 1)) % TWO40 == (v + k) % TWO40
  {
  }

  lemma ValueBelow(d: Dir)
    requires ValidDir(d)
    ensures Value(d) < TWO40
  {
  }

  /** No nonce is used twice: those of two packets of a direction with the same vectors are
      different unless 2^40 packets lie between them, and then they are the same. */
  lemma NonceOnce(d: Dir, i: nat, j: nat)
    requires ValidDir(d) && i <= j
    ensures ValidDir(Ahead(d, i)) && ValidDir(Ahead(d, j))
    ensures Nonce(Ahead(d, i)) == Nonce(Ahead(d, j)) <==> (j - i) % TWO40 == 0
  {
    AheadWraps(d, i);
    AheadWraps(d, j);
    NoncesDiffer(Ahead(d, i), Ahead(d, j));
    SameAgain(Value(d), i, j);
    hide Value, Ahead, Nonce;
  }

  lemma SameAgain(v: nat, i: nat, j: nat)
    requires i <= j
    ensures (v + i) % TWO40 == (v + j) % TWO40 <==> (j - i) % TWO40 == 0
  {
  }

  lemma {:induction false} AheadValue(d: Dir, k: nat)
    requires ValidDir(d) && Value(d) + k < TWO40
    ensures ValidDir(Ahead(d, k)) && Value(Ahead(d, k)) == Value(d) + k
    ensures Ahead(d, k).host == d.host && Ahead(d, k).target == d.target
    decreases k
  {
    IncreaseIsSuccessor(d);
    if k > 0 {
      AheadValue(Increase(d), k - 1);
    }
  }

  lemma FirstSent(c: Ccm, d: Dir, msgs: seq<seq<Byte>>)
    requires ValidDir(d) && (forall m :: m in msgs ==> |m| >= 2) && AllSeal(c, d, msgs) && msgs != []
    ensures ValidDir(Increase(d)) && Encrypt(c, d, msgs[0]).packet.Some? && AllSeal(c, Increase(d), msgs[1..])
    ensures SendAll(c, d, msgs) == [Encrypt(c, d, msgs[0]).packet.value] + SendAll(c, Increase(d), msgs[1..])
  {
  }

  lemma {:induction false} AllAreSent(c: Ccm, d: Dir, msgs: seq<seq<Byte>>)
    requires ValidDir(d) && (forall m :: m in msgs ==> |m| >= 2) && AllSeal(c, d, msgs)
    ensures |SendAll(c, d, msgs)| == |msgs|
    decreases |msgs|
  {
    hide AllSeal, Encrypt, Increase;
    if msgs != [] {
      FirstSent(c, d, msgs);
      AllAreSent(c, Increase(d), msgs[1..]);
    }
  }

  /** The k-th packet is the k-th message sealed under the k-th counter. */
  lemma {:induction false} SentPacket(c: Ccm, d: Dir, msgs: seq<seq<Byte>>, k: nat)
    requires ValidDir(d) && (forall m :: m in msgs ==> |m| >= 2) && AllSeal(c, d, msgs)
    requires k < |msgs|
    ensures |SendAll(c, d, msgs)| == |msgs| && ValidDir(Ahead(d, k))
    ensures Encrypt(c, Ahead(d, k), msgs[k]).packet == Some(SendAll(c, d, msgs)[k])
    decreases k
  {
    hide AllSeal, Encrypt, Increase, SendAll, ValidDir, Value;
    AllAreSent(c, d, msgs);
    FirstSent(c, d, msgs);
    if k > 0 {
      SentPacket(c, Increase(d), msgs[1..], k - 1);
    }
  }

  /** The packets of a session are sealed each under a nonce of its own, as long as the other is
      fewer than 2^40 packets away. */
  lemma SealedUnderItsOwn(c: Ccm, d: Dir, msgs: seq<seq<Byte>>, i: nat, j: nat)
    requires ValidDir(d) && (forall m :: m in msgs ==> |m| >= 2) && AllSeal(c, d, msgs)
    requires i < j < |msgs|
    ensures |SendAll(c, d, msgs)| == |msgs| && ValidDir(Ahead(d, i)) && ValidDir(Ahead(d, j))
    ensures Some(SendAll(c, d, msgs)[i]) == Encrypt(c, Ahead(d, i), msgs[i]).packet
    ensures Some(SendAll(c, d, msgs)[j]) == Encrypt(c, Ahead(d, j), msgs[j]).packet
    ensures forall n, n' :: NonceOf(n, Ahead(d, i)) && NonceOf(n', Ahead(d, j)) && j - i < TWO40 ==> n != n'
  {
    hide Encrypt, AllSeal, SendAll, Increase, NonceOf;
    SentPacket(c, d, msgs, i);
    SentPacket(c, d, msgs, j);
    NonceOnce(d, i, j);
    forall n, n' | NonceOf(n, Ahead(d, i)) && NonceOf(n', Ahead(d, j)) && j - i < TWO40
      ensures n != n'
    {
      NonceExactly(n, Ahead(d, i));
      NonceExactly(n', Ahead(d, j));
    }
  }

  /** The messages with these numbers. */
  function Pick<T>(msgs: seq<T>, ks: seq<nat>): seq<T>
    requires forall i :: 0 <= i < |ks| ==> ks[i] < |msgs|
  {
    seq(|ks|, i requires 0 <= i < |ks| => msgs[ks[i]])
  }

  /** The two ends share key and initialization vectors, and the messages of the session
      are too few for the sender's counter to wrap. */
  ghost predicate Paired(c: Ccm, out: Dir, inn: Dir, msgs: seq<seq<Byte>>) {
    && IsCcm(c) && ValidDir(out) && ValidDir(inn)
    && inn.host == out.host && inn.target == out.target
    && (forall m :: m in msgs ==> |m| >= 2 && m[0] / 64 % 2 == 0)
    && Value(out) + |msgs| < TWO40
  }

  lemma {:induction false} SentLengths(c: Ccm, d: Dir, msgs: seq<seq<Byte>>)
    requires IsCcm(c) && ValidDir(d) && (forall m :: m in msgs ==> |m| >= 2)
    ensures forall x :: x in SendAll(c, d, msgs) ==> |x| >= 11
    decreases |msgs|
  {
    if msgs != [] {
      var r := Encrypt(c, d, msgs[0]);
      if r.packet.Some? {
        Layout(c, d, msgs[0]);
      }
      IncreaseIsSuccessor(d);
      SentLengths(c, r.dir, msgs[1..]);
    }
  }

  /** The receiver at counter value base + next takes packet k, unless it is behind. */
  lemma TakesPacket(c: Ccm, out: Dir, inn: Dir, msgs: seq<seq<Byte>>, next: nat, k: nat)
    requires Paired(c, out, inn, msgs) && AllSeal(c, out, msgs) && Value(inn) == Value(out) + next && k < |msgs|
    ensures |SendAll(c, out, msgs)| == |msgs| && |SendAll(c, out, msgs)[k]| >= 11
    ensures var r := Decrypt(c, inn, SendAll(c, out, msgs)[k]);
            if k >= next then r.packet == Some(msgs[k]) && Value(r.dir) == Value(out) + k + 1
            else r == Result(None, inn)
  {
    hide Encrypt, Decrypt, Increase, IsCcm, AllSeal, SendAll;
    SentPacket(c, out, msgs, k);
    AheadValue(out, k);
    IncreaseIsSuccessor(Ahead(out, k));
    PacketRoundTrip(c, Ahead(out, k), inn, msgs[k]);
    ExactBytesExactly(msgs[k]);
  }

  lemma {:induction false} NumberedDelivers(c: Ccm, out: Dir, inn: Dir, msgs: seq<seq<Byte>>, next: nat,
                                            arrivals: seq<nat>)
    requires Paired(c, out, inn, msgs) && AllSeal(c, out, msgs) && Value(inn) == Value(out) + next
    requires forall i :: 0 <= i < |arrivals| ==> arrivals[i] < |msgs|
    ensures var sent := SendAll(c, out, msgs);
            var taken := Accepted(arrivals, next);
            && |sent| == |msgs| && (forall x :: x in sent ==> |x| >= 11)
            && (forall i :: 0 <= i < |taken| ==> taken[i] < |msgs|)
            && ReceiveAll(c, inn, Pick(sent, arrivals)) == Pick(msgs, taken)
    decreases |arrivals|
  {
    hide SendAll, Decrypt, IsCcm, AllSeal, Value;
    AllAreSent(c, out, msgs);
    SentLengths(c, out, msgs);
    var sent := SendAll(c, out, msgs);
    if arrivals != [] {
      var k := arrivals[0];
      TakesPacket(c, out, inn, msgs, next, k);
      var r := Decrypt(c, inn, sent[k]);
      DecryptValid(c, inn, sent[k]);
      NumberedDelivers(c, out, r.dir, msgs, if k >= next then k + 1 else next, arrivals[1..]);
      assert Pick(sent, arrivals) == [sent[k]] + Pick(sent, arrivals[1..]);
    }
  }

  /** Within a session, over a channel that drops, repeats and reorders packets, exactly the
      messages of the packets not behind the last one taken are delivered: byte for byte, in
      the order sent, and each at most once.  Packets are numbered by the messages sealed. */
  lemma SessionDelivers(c: Ccm, out: Dir, inn: Dir, msgs: seq<seq<Byte>>, next: nat, arrivals: seq<nat>)
    requires Paired(c, out, inn, msgs) && Value(inn) == Value(out) + next
    requires forall i :: 0 <= i < |arrivals| ==> arrivals[i] < |SealedOf(c, out, msgs)|
    ensures var sent, kept := SendAll(c, out, msgs), SealedOf(c, out, msgs);
            var taken := Accepted(arrivals, next);
            && |sent| == |kept| && (forall x :: x in sent ==> |x| >= 11)
            && (forall i :: 0 <= i < |taken| ==> taken[i] < |kept|)
            && ReceiveAll(c, inn, Pick(sent, arrivals)) == Pick(kept, taken)
  {
    hide SendAll, IsCcm, Value, ReceiveAll, SealedOf, AllSeal, Accepted, ValidDir, Pick;
    SealedAlone(c, out, msgs);
    SealedArePart(c, out, msgs);
    NumberedDelivers(c, out, inn, SealedOf(c, out, msgs), next, arrivals);
  }

  /** The bound on the session matters: once the counter wraps, every packet of the
      session is accepted again. */
  lemma WrapAcceptsAgain(c: Ccm, out: Dir, inn: Dir, last: seq<Byte>, early: Dir, src: seq<Byte>)
    requires IsCcm(c) && ValidDir(out) && ValidDir(inn) && ValidDir(early)
    requires inn.host == out.host == early.host && inn.target == out.target == early.target
    requires Value(inn) <= Value(out) == TWO40 - 1 && |last| >= 2 && |src| >= 2
    requires Encrypt(c, out, last).packet.Some? && Encrypt(c, early, src).packet.Some?
    ensures var x := Encrypt(c, out, last).packet;
            var y := Encrypt(c, early, src).packet;
            && |x.value| >= 11 && |y.value| >= 11
            && ValidDir(Decrypt(c, inn, x.value).dir)
            && Decrypt(c, Decrypt(c, inn, x.value).dir, y.value).packet.Some?
  {
    PacketRoundTrip(c, out, inn, last);
    IncreaseIsSuccessor(out);
    PacketRoundTrip(c, early, Increase(out), src);
    hide Decrypt, Encrypt;
  }
}
