/** Bytes, and numbers in little-endian byte order as a C struct lays them out in memory. */
module Bytes {

  type Byte = x: int | 0 <= x < 256

  /** The n bytes of v, least significant first. */
  function LittleEndian(v: nat, n: nat): (s: seq<Byte>)
    ensures |s| == n
  {
    if n == 0 then [] else [v % 256] + LittleEndian(v / 256, n - 1)
  }

  function FromLittleEndian(s: seq<Byte>): nat {
    if s == [] then 0 else s[0] + 256 * FromLittleEndian(s[1..])
  }

  function Pow256(n: nat): nat {
    if n == 0 then 1 else 256 * Pow256(n - 1)
  }

  /** The bytes of a number give it back when there are enough of them. */
  lemma {:induction false} LittleEndianBack(v: nat, n: nat)
    requires v < Pow256(n)
    ensures FromLittleEndian(LittleEndian(v, n)) == v
  {
    if n > 0 {
      LittleEndianBack(v / 256, n - 1);
      assert LittleEndian(v, n)[1..] == LittleEndian(v / 256, n - 1);
    }
  }

  /** And a number is determined by its bytes. */
  lemma {:induction false} FromLittleEndianBack(s: seq<Byte>)
    ensures FromLittleEndian(s) < Pow256(|s|)
    ensures LittleEndian(FromLittleEndian(s), |s|) == s
  {
    if s != [] {
      FromLittleEndianBack(s[1..]);
      var rest := FromLittleEndian(s[1..]);
      DigitBack(s[0], rest);
      hide LittleEndian;
      assert LittleEndian(FromLittleEndian(s), |s|) == s by {
        OneByteMore(s[0] + 256 * rest, |s|);
      }
    }
  }

  lemma DigitBack(b: Byte, rest: nat)
    ensures (b + 256 * rest) % 256 == b && (b + 256 * rest) / 256 == rest
  {
  }

  lemma OneByteMore(v: nat, n: nat)
    requires n > 0
    ensures LittleEndian(v, n) == [v % 256] + LittleEndian(v / 256, n - 1)
  {
  }

  /** The longest payload of a packet (BGLIB_MSG_MAX_PAYLOAD). */
  const MAX_PAYLOAD := 256

  /** The payload length the first two bytes of a packet header give (BGLIB_MSG_LEN): eleven
      bits, the upper three from the first byte. */
  function HeaderLength(b0: Byte, b1: Byte): (n: nat)
    ensures n % 256 == b1 && n / 256 == b0 % 8
  {
    b0 % 8 * 256 + b1
  }

  /** memcpy of a value into a buffer. */
  method CopyInto<T>(dst: array<T>, at: nat, s: seq<T>)
    requires at + |s| <= dst.Length
    modifies dst
    ensures dst[..] == old(dst[..at]) + s + old(dst[at + |s|..])
  {
    var i := 0;
    while i < |s|
      invariant 0 <= i <= |s|
      invariant dst[..at] == old(dst[..at]) && dst[at + |s|..] == old(dst[at + |s|..])
      invariant dst[at..at + i] == s[..i]
    {
      dst[at + i] := s[i];
      i := i + 1;
      assert s[..i] == s[..i - 1] + [s[i - 1]];
    }
    assert dst[..] == dst[..at] + dst[at..at + |s|] + dst[at + |s|..];
  }
}
