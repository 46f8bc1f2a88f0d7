/** The security module of the daemon as it keeps its state: two counters in place, a
    state word, and packets transformed from one buffer into another. */
module SecurityState {
  import opened Bytes
  import opened Mesh
  import opened SecureLink

  class ConnNonce {
    var counter: nat
    var hi: nat
    var hostIv: seq<Byte>
    var targetIv: seq<Byte>

    constructor ()
      ensures counter == 0 && hi == 0 && hostIv == [0, 0, 0, 0] && targetIv == [0, 0, 0, 0]
    {
      counter := 0;
      hi := 0;
      hostIv := [0, 0, 0, 0];
      targetIv := [0, 0, 0, 0];
    }

    ghost function View(): Dir
      reads this
    {
      Dir(counter, hi, hostIv, targetIv)
    }

    method Increase()
      requires ValidDir(View())
      modifies this`counter, this`hi
      ensures View() == SecureLink.Increase(old(View())) && ValidDir(View())
      ensures Value(View()) == (old(Value(View())) + 1) % TWO40
    {
      IncreaseIsSuccessor(View());
      if counter == UINT32_MAX {
        hi := (hi + 1) % 256;
      }
      counter := (counter + 1) % TWO32;
    }
  }

  datatype Phase = Unencrypted | IncreaseSecurity | Encrypted

  class Security {
    const ccm: Ccm
    const counterIn: ConnNonce
    const counterOut: ConnNonce
    var state: Phase
    /** The calls of the state change callback, oldest first. */
    var reported: seq<Phase>

    ghost predicate Valid()
      reads this, counterIn, counterOut
    {
      IsCcm(ccm) && counterIn != counterOut && ValidDir(counterIn.View()) && ValidDir(counterOut.View())
    }

    constructor (c: Ccm)
      requires IsCcm(c)
      ensures Valid() && fresh(counterIn) && fresh(counterOut)
      ensures state == Unencrypted && reported == [] && ccm == c
    {
      ccm := c;
      counterIn := new ConnNonce();
      counterOut := new ConnNonce();
      state := Unencrypted;
      reported := [];
    }

    /** change_state: a change is reported, and only a change. */
    method ChangeState(ns: Phase)
      modifies this`state, this`reported
      ensures state == ns
      ensures reported == old(reported) + (if old(state) == ns then [] else [ns])
    {
      if state == ns {
        return;
      }
      state := ns;
      reported := reported + [ns];
    }

    method Reset()
      modifies this`state, this`reported
      ensures state == Unencrypted
      ensures reported == old(reported) + (if old(state) == Unencrypted then [] else [Unencrypted])
    {
      ChangeState(Unencrypted);
    }

    /** sl_security_start: keyOk, ivOut and ivIn stand for the key and the random numbers,
        absent when generating them failed. */
    method Start(keyOk: bool, ivOut: Option<seq<Byte>>, ivIn: Option<seq<Byte>>)
      requires Valid() && (ivOut.Some? ==> |ivOut.value| == 4) && (ivIn.Some? ==> |ivIn.value| == 4)
      modifies this`state, counterIn, counterOut
      ensures Valid()
      ensures old(state) != Unencrypted ==>
                state == old(state) && counterIn.View() == old(counterIn.View())
                    && counterOut.View() == old(counterOut.View())
      ensures old(state) == Unencrypted ==>
                && Value(counterIn.View()) == 0 && Value(counterOut.View()) == 0
                && (state == if keyOk && ivOut.Some? && ivIn.Some? then IncreaseSecurity else Unencrypted)
                && (state == IncreaseSecurity ==> counterOut.hostIv == ivOut.value && counterIn.hostIv == ivIn.value)
                && counterOut.targetIv == old(counterOut.targetIv) && counterIn.targetIv == old(counterIn.targetIv)
    {
      if state == Unencrypted {
        counterIn.counter := 0;
        counterIn.hi := 0;
        counterOut.counter := 0;
        counterOut.hi := 0;
        if !keyOk || ivOut.None? {
          return;
        }
        counterOut.hostIv := ivOut.value;
        if ivIn.None? {
          return;
        }
        counterIn.hostIv := ivIn.value;
        state := IncreaseSecurity;
      }
    }

    /** sl_security_increase_security_rsp: the target's vectors complete the nonces. */
    method Respond(secretOk: bool, ivToTarget: seq<Byte>, ivToHost: seq<Byte>)
      requires Valid() && |ivToTarget| == 4 && |ivToHost| == 4
      modifies this`state, this`reported, counterIn`targetIv, counterOut`targetIv
      ensures Valid()
      ensures old(state) != IncreaseSecurity ==>
                && state == old(state) && reported == old(reported)
                && counterIn.View() == old(counterIn.View()) && counterOut.View() == old(counterOut.View())
      ensures old(state) == IncreaseSecurity ==>
                && state == (if secretOk then Encrypted else Unencrypted) && reported == old(reported) + [state]
                && counterOut.View() == old(counterOut.View()).(target := ivToTarget)
                && counterIn.View() == old(counterIn.View()).(target := ivToHost)
    {
      if state == IncreaseSecurity {
        counterOut.targetIv := ivToTarget;
        counterIn.targetIv := ivToHost;
        ChangeState(if secretOk then Encrypted else Unencrypted);
      }
    }

    /** The body of sl_security_encrypt_packet, inside its buffers. */
    method Seal(src: array<Byte>, dst: array<Byte>, len: nat) returns (n: nat)
      requires Valid() && src != dst && 2 <= len <= src.Length && len + 9 <= dst.Length
      modifies dst, counterOut`counter, counterOut`hi
      ensures Valid()
      ensures var r := Encrypt(ccm, old(counterOut.View()), src[..len]);
              && counterOut.View() == r.dir
              && if r.packet.Some? then n == |r.packet.value| == len + 9 && dst[..n] == r.packet.value else n == 0
      ensures dst[len + 9..] == old(dst[len + 9..])
    {
      ghost var d, was := counterOut.View(), dst[..];
      dst[0] := SetEncrypted(src[0]);
      dst[1] := AddTo(src[1], 9);
      var counter := LittleEndian(counterOut.counter, 4) + [counterOut.hi];
      var header := [SetEncrypted(src[0]), AddTo(src[1], 9)];
      assert src[..len][2..] == src[2..len];
      var sealed := ccm.seal(counter + counterOut.hostIv + counterOut.targetIv, header + counter, src[2..len]);
      assert sealed == ccm.seal(Nonce(d), header + CounterBytes(d), src[..len][2..]);
      if sealed.None? {
        return 0;
      }
      hide IsCcm, LittleEndian;
      assert dst[..] == header + was[2..];
      CopyInto(dst, 2, sealed.value);
      CopyInto(dst, len + 4, counter);
      n := len + 9;
      assert dst[..] == header + sealed.value + counter + was[n..];
      assert counterOut.View() == d && dst[..n] == header + sealed.value + counter;
      counterOut.Increase();
    }

    /** Encrypts the len bytes of src into dst and returns the length of the packet, or zero.
        Nothing is done here where the function goes outside a buffer: for less than a message
        type and length, or without nine bytes more in dst. */
    method EncryptPacket(src: array<Byte>, dst: array<Byte>, len: nat) returns (inside: bool, n: nat)
      requires Valid() && src != dst && len <= src.Length
      modifies dst, counterOut`counter, counterOut`hi
      ensures Valid() && (inside <==> 2 <= len && len + 9 <= dst.Length)
      ensures !inside ==> n == 0 && counterOut.View() == old(counterOut.View()) && dst[..] == old(dst[..])
      ensures inside ==>
                var r := Encrypt(ccm, old(counterOut.View()), src[..len]);
                && counterOut.View() == r.dir
                && (if r.packet.Some? then n == |r.packet.value| == len + 9 && dst[..n] == r.packet.value else n == 0)
                && dst[len + 9..] == old(dst[len + 9..])
    {
      inside := 2 <= len && len + 9 <= dst.Length;
      n := 0;
      if inside {
        n := Seal(src, dst, len);
      }
    }

    /** The body of sl_security_decrypt_packet, inside its buffers. */
    method Open(src: array<Byte>, dst: array<Byte>, len: nat) returns (n: nat)
      requires Valid() && src != dst && 11 <= len <= src.Length && len - 9 <= dst.Length
      modifies dst, counterIn`counter, counterIn`hi
      ensures Valid()
      ensures var r := Decrypt(ccm, old(counterIn.View()), src[..len]);
              && counterIn.View() == r.dir
              && if r.packet.Some? then n == |r.packet.value| == len - 9 && dst[..n] == r.packet.value else n == 0
      ensures dst[len - 9..] == old(dst[len - 9..])
    {
      ghost var d, was := counterIn.View(), dst[..];
      dst[0] := ClearEncrypted(src[0]);
      dst[1] := AddTo(src[1], 247);
      n := len - 9;
      assert src[..len][n + 4..n + 8] == src[n + 4..n + 8];
      assert src[..len][2..n + 4] == src[2..n + 4];
      assert src[..len][..2] == src[..2];
      CounterFits(src[n + 4..n + 8]);
      var counter := FromLittleEndian(src[n + 4..n + 8]);
      var hi := src[n + 8];
      if !(hi > counterIn.hi || (hi == counterIn.hi && counter >= counterIn.counter)) {
        return 0;
      }
      var bytes := LittleEndian(counter, 4) + [hi];
      ghost var at := Dir(counter, hi, d.host, d.target);
      var text := ccm.open(bytes + counterIn.hostIv + counterIn.targetIv, src[..2] + bytes, src[2..n + 4]);
      assert text == ccm.open(Nonce(at), src[..len][..2] + CounterBytes(at), src[..len][2..n + 4]);
      if text.None? {
        return 0;
      }
      var header := [ClearEncrypted(src[0]), AddTo(src[1], 247)];
      assert |text.value| == n - 2;
      assert Decrypt(ccm, d, src[..len]) == SecureLink.Result(Some(header + text.value), SecureLink.Increase(at));
      hide IsCcm, LittleEndian, FromLittleEndian, Decrypt;
      assert dst[..] == header + was[2..];
      CopyInto(dst, 2, text.value);
      assert dst[..] == header + text.value + was[n..];
      if counterIn.counter != counter || counterIn.hi != hi {
        counterIn.counter := counter;
        counterIn.hi := hi;
      }
      assert counterIn.View() == at;
      counterIn.Increase();
    }

    /** Decrypts the len bytes of src into dst and returns the length of the packet, or zero.
        Nothing is done here where the function goes outside a buffer: a packet shorter than its
        header, tag and counter has a length that wraps below zero. */
    method DecryptPacket(src: array<Byte>, dst: array<Byte>, len: nat) returns (inside: bool, n: nat)
      requires Valid() && src != dst && len <= src.Length
      modifies dst, counterIn`counter, counterIn`hi
      ensures Valid() && (inside <==> 11 <= len && len - 9 <= dst.Length)
      ensures !inside ==> n == 0 && counterIn.View() == old(counterIn.View()) && dst[..] == old(dst[..])
      ensures inside ==>
                var r := Decrypt(ccm, old(counterIn.View()), src[..len]);
                && counterIn.View() == r.dir
                && (if r.packet.Some? then n == |r.packet.value| == len - 9 && dst[..n] == r.packet.value else n == 0)
                && dst[len - 9..] == old(dst[len - 9..])
    {
      inside := 11 <= len && len - 9 <= dst.Length;
      n := 0;
      if inside {
        n := Open(src, dst, len);
      }
    }

    /** The encrypted host socket has data: buf holds what recv returned, tbuf takes the packet. */
    method FromHost(buf: array<Byte>, tbuf: array<Byte>, received: int) returns (r: HostRead)
      requires Valid() && buf != tbuf && buf.Length == tbuf.Length == MAX_PACKET_SIZE && received <= buf.Length
      modifies tbuf, counterOut`counter, counterOut`hi
      ensures Valid()
      ensures received <= 0 ==> r == if received == 0 then Closed else Failed
      ensures received > 0 ==>
                && (r.Overrun? <==> received == 1 || received > MAX_PACKET_SIZE - 9)
                && (!r.Overrun? ==>
                      var p := Encrypt(ccm, old(counterOut.View()), buf[..received]).packet;
                      r == Written(if p.Some? then p.value else []))
    {
      if received == 0 {
        return Closed;
      } else if received < 0 {
        return Failed;
      }
      var inside, n := EncryptPacket(buf, tbuf, received);
      if !inside {
        return Overrun;
      }
      return Written(tbuf[..n]);
    }
  }

  /** The size of both buffers of the socket callback. */
  const MAX_PACKET_SIZE := 512

  /** What becomes of data from the host: its packet goes to the serial line, or encrypting
      it goes outside the buffers. */
  datatype HostRead = Closed | Failed | Overrun | Written(packet: seq<Byte>)
}
