/** Byte strings as hexadecimal text and back: cbuf2str and str2cbuf. */
module HexText {
  import opened Bytes
  import opened Mesh

  datatype Status = Success | NotExist | LengthLeak | ParamInvalid

  /** hex_value_to_char on a digit value */
  function HexChar(v: nat): char
    requires v < 16
  {
    if v <= 9 then '0' + v as char else 'a' + (v - 10) as char
  }

  predicate IsHex(c: char) {
    '0' <= c <= '9' || 'a' <= c <= 'f' || 'A' <= c <= 'F'
  }

  /** hex_char_to_value on a digit */
  function HexValue(c: char): nat
    requires IsHex(c)
  {
    if '0' <= c <= '9' then c as nat - '0' as nat
    else if 'a' <= c <= 'f' then c as nat - 'a' as nat + 10
    else c as nat - 'A' as nat + 10
  }

  /** A digit stands for its place in the row of digits, in either case. */
  predicate StandsFor(c: char, v: int) {
    0 <= v < 16 && (c == "0123456789abcdef"[v] || c == "0123456789ABCDEF"[v])
  }

  lemma DigitWritten(v: nat)
    requires v < 16
    ensures HexChar(v) == "0123456789abcdef"[v]
  {
  }

  /** A character is a digit exactly when it stands for a value, and for one only. */
  lemma DigitExactly(c: char, v: int)
    ensures StandsFor(c, v) <==> IsHex(c) && v == HexValue(c)
  {
  }

  lemma HexDigitBack(v: nat)
    requires v < 16
    ensures IsHex(HexChar(v)) && HexValue(HexChar(v)) == v
  {
  }

  function Reverse<T>(s: seq<T>): (r: seq<T>)
    ensures |r| == |s| && forall i :: 0 <= i < |s| ==> r[i] == s[|s| - 1 - i]
  {
    seq(|s|, i requires 0 <= i < |s| => s[|s| - 1 - i])
  }

  lemma ReverseTwice<T>(s: seq<T>)
    ensures Reverse(Reverse(s)) == s
  {
  }

  /** Two digits a byte, high digit first. */
  function Hex(s: seq<Byte>): (t: seq<char>)
    ensures |t| == 2 * |s|
    ensures forall i :: 0 <= i < |s| ==> Pair(t, i) == PairOf(s[i])
  {
    seq(2 * |s|, i requires 0 <= i < 2 * |s| => HexChar(if i % 2 == 0 then s[i / 2] / 16 else s[i / 2] % 16))
  }

  /** Texts that agree on every byte's two digits are the same. */
  lemma SamePairs(t: seq<char>, u: seq<char>, n: nat)
    requires |t| == |u| == 2 * n
    requires forall i :: 0 <= i < n ==> Pair(t, i) == Pair(u, i)
    ensures t == u
  {
    forall j | 0 <= j < 2 * n
      ensures t[j] == u[j]
    {
      assert Pair(t, j / 2) == Pair(u, j / 2);
      assert j == 2 * (j / 2) || j == 2 * (j / 2) + 1;
    }
  }

  /** The digits of byte i. */
  function Pair(t: seq<char>, i: nat): (char, char)
    requires 2 * i + 1 < |t|
  {
    (t[2 * i], t[2 * i + 1])
  }

  function PairOf(b: Byte): (char, char) {
    (HexChar(b / 16), HexChar(b % 16))
  }

  predicate AllHex(t: seq<char>) {
    forall i :: 0 <= i < |t| ==> IsHex(t[i])
  }

  predicate HexPair(t: seq<char>, i: nat)
    requires 2 * i + 1 < |t|
  {
    IsHex(t[2 * i]) && IsHex(t[2 * i + 1])
  }

  lemma AllHexPairs(t: seq<char>, n: nat)
    requires |t| == 2 * n
    ensures AllHex(t) <==> forall i :: 0 <= i < n ==> HexPair(t, i)
  {
    if forall i :: 0 <= i < n ==> HexPair(t, i) {
      forall j | 0 <= j < 2 * n
        ensures IsHex(t[j])
      {
        assert HexPair(t, j / 2);
        assert j == 2 * (j / 2) || j == 2 * (j / 2) + 1;
      }
    }
  }

  /** __asmbhex on the digits of byte i. */
  function ByteAt(t: seq<char>, i: nat): Byte
    requires 2 * i + 1 < |t| && HexPair(t, i)
  {
    HexValue(t[2 * i]) * 16 + HexValue(t[2 * i + 1])
  }

  function Unhex(t: seq<char>): (s: seq<Byte>)
    requires |t| % 2 == 0 && AllHex(t)
    ensures |s| == |t| / 2
    ensures forall i :: 0 <= i < |s| ==> s[i] == ByteAt(t, i)
  {
    seq(|t| / 2, i requires 0 <= i < |t| / 2 => ByteAt(t, i))
  }

  function InOrder<T>(s: seq<T>, rev: bool): seq<T> {
    if rev then Reverse(s) else s
  }

  /** The text of a byte string, last byte first when rev is set. */
  function Text(s: seq<Byte>, rev: bool): seq<char> {
    Hex(InOrder(s, rev))
  }

  /** The digits of byte i, in lower case and the high one first, stand where the direction has
      the byte. */
  lemma TextExactly(s: seq<Byte>, rev: bool, i: nat)
    requires i < |s|
    ensures |Text(s, rev)| == 2 * |s|
    ensures var at := 2 * (if rev then |s| - 1 - i else i);
            Text(s, rev)[at] == "0123456789abcdef"[s[i] / 16] && Text(s, rev)[at + 1] == "0123456789abcdef"[s[i] % 16]
  {
    var b, j := s[i], if rev then |s| - 1 - i else i;
    assert InOrder(s, rev)[j] == b;
    hide HexChar, Hex, InOrder;
    DigitWritten(b / 16);
    DigitWritten(b % 16);
    assert Pair(Text(s, rev), j) == PairOf(b);
  }

  /** Byte i of what a text is read as has the digits that the direction puts there. */
  lemma UnhexExactly(t: seq<char>, rev: bool, i: nat)
    requires |t| % 2 == 0 && AllHex(t) && i < |t| / 2
    ensures |InOrder(Unhex(t), rev)| == |t| / 2
    ensures var at := 2 * (if rev then |t| / 2 - 1 - i else i);
            var b := InOrder(Unhex(t), rev)[i];
            StandsFor(t[at], b / 16) && StandsFor(t[at + 1], b % 16)
  {
    var j := if rev then |t| / 2 - 1 - i else i;
    ByteExactly(t, j);
    hide ByteAt, StandsFor, IsHex;
  }

  lemma ByteExactly(t: seq<char>, j: nat)
    requires 2 * j + 1 < |t| && HexPair(t, j)
    ensures StandsFor(t[2 * j], ByteAt(t, j) / 16) && StandsFor(t[2 * j + 1], ByteAt(t, j) % 16)
  {
    var h, l := HexValue(t[2 * j]), HexValue(t[2 * j + 1]);
    DigitExactly(t[2 * j], h);
    DigitExactly(t[2 * j + 1], l);
    assert h < 16 && l < 16;
    hide HexValue, StandsFor, IsHex;
    TwoDigits(h, l);
  }

  lemma TwoDigits(h: nat, l: nat)
    requires h < 16 && l < 16
    ensures (h * 16 + l) / 16 == h && (h * 16 + l) % 16 == l
  {
  }

  /** The C string in a buffer: what precedes the first zero.  Without one strlen reads on
      behind the buffer. */
  function CString(buf: seq<char>): Option<seq<char>> {
    if buf == [] then None
    else if buf[0] == '\0' then Some([])
    else
      match CString(buf[1..])
      case None => None
      case Some(t) => Some([buf[0]] + t)
  }

  lemma {:induction false} CStringIs(buf: seq<char>, t: seq<char>)
    requires t <= buf && forall i :: 0 <= i < |t| ==> t[i] != '\0'
    ensures CString(buf) == Some(t) <==> |t| < |buf| && buf[|t|] == '\0'
  {
    if t != [] {
      CStringIs(buf[1..], t[1..]);
      assert t == [t[0]] + t[1..];
      assert CString(buf).Some? ==> CString(buf).value[1..] == CString(buf[1..]).value;
    }
  }

  lemma TextHasNoZero(s: seq<Byte>)
    ensures forall i :: 0 <= i < |Hex(s)| ==> Hex(s)[i] != '\0'
  {
    forall v: nat | v < 16
      ensures HexChar(v) != '\0'
    {
    }
    hide HexChar, PairOf, Pair;
  }

  /** The text of cbuf2str ends in its buffer, for str2cbuf to read, exactly when the buffer
      goes on behind it with a zero: cbuf2str writes none. */
  lemma TextInBuffer(buf: seq<char>, s: seq<Byte>, rev: bool)
    requires |buf| >= 2 * |s| && buf[..2 * |s|] == Text(s, rev)
    ensures CString(buf) == Some(Text(s, rev)) <==> 2 * |s| < |buf| && buf[2 * |s|] == '\0'
  {
    TextHasNoZero(InOrder(s, rev));
    hide Hex, CString, InOrder;
    CStringIs(buf, Text(s, rev));
  }

  /** Byte k of the text is written after i turns. */
  predicate Written(k: int, i: int, len: int, rev: bool) {
    if rev then len - i <= k < len else 0 <= k < i
  }

  /** cbuf2str: the text of src in the first bytes of dest, when it fits. */
  method CbufToStr(src: array<Byte>, len: nat, rev: bool, dest: array<char>) returns (e: Status)
    requires len <= src.Length
    modifies dest
    ensures dest.Length < 2 * len ==> e == NotExist && dest[..] == old(dest[..])
    ensures dest.Length >= 2 * len ==>
              e == Success && dest[..2 * len] == Text(src[..len], rev) && dest[2 * len..] == old(dest[2 * len..])
    ensures e == Success ==>
              (CString(dest[..]) == Some(Text(src[..len], rev)) <==>
               2 * len < dest.Length && old(dest[..])[2 * len] == '\0')
  {
    if dest.Length < len * 2 {
      return NotExist;
    }

    ghost var s := InOrder(src[..len], rev);
    for i := 0 to len
      invariant dest[2 * len..] == old(dest[2 * len..])
      invariant forall k :: Written(k, i, len, rev) ==> Pair(dest[..], k) == PairOf(s[k])
    {
      if rev {
        dest[len * 2 - 1 - i * 2] := HexChar(src[i] % 16);
        dest[len * 2 - 2 - i * 2] := HexChar(src[i] / 16);
      } else {
        dest[i * 2] := HexChar(src[i] / 16);
        dest[i * 2 + 1] := HexChar(src[i] % 16);
      }
    }
    forall k | 0 <= k < len
      ensures Pair(dest[..2 * len], k) == Pair(Hex(s), k)
    {
      assert Written(k, len, len, rev);
      assert Pair(dest[..], k) == Pair(dest[..2 * len], k);
    }
    SamePairs(dest[..2 * len], Hex(s), len);
    hide Hex, CString, Pair, PairOf, HexChar;
    assert dest[..][..2 * len] == dest[..2 * len];
    TextInBuffer(dest[..], src[..len], rev);
    assert 2 * len < dest.Length ==> dest[2 * len] == dest[2 * len..][0] == old(dest[2 * len..])[0];
    return Success;
  }

  /** str2cbuf: the bytes of the text in dest, when they fit and the text is one. */
  method StrToCbuf(src: seq<char>, rev: bool, dest: array<Byte>) returns (e: Status)
    modifies dest
    ensures dest.Length < |src| / 2 ==> e == LengthLeak
    ensures dest.Length >= |src| / 2 && |src| % 2 == 1 ==> e == ParamInvalid
    ensures dest.Length >= |src| / 2 && |src| % 2 == 0 ==>
              (e == Success <==> AllHex(src)) && e in {Success, ParamInvalid}
    ensures e == Success ==> |src| % 2 == 0 && AllHex(src) && dest[..|src| / 2] == InOrder(Unhex(src), rev)
    ensures dest[MinInt(dest.Length, |src| / 2)..] == old(dest[MinInt(dest.Length, |src| / 2)..])
  {
    var len := |src|;
    if dest.Length < len / 2 {
      return LengthLeak;
    } else if len % 2 == 1 {
      return ParamInvalid;
    }
    var n := len / 2;
    AllHexPairs(src, n);
    for i := 0 to n
      invariant dest[n..] == old(dest[n..])
      invariant forall k :: 0 <= k < i ==> HexPair(src, k)
      invariant forall k :: Written(k, i, n, rev) ==> dest[k] == ByteAt(src, Source(k, n, rev))
    {
      if !IsHex(src[2 * i]) || !IsHex(src[2 * i + 1]) {
        assert !HexPair(src, i);
        return ParamInvalid;
      }
      assert HexPair(src, i);
      hide HexPair;
      var ret := HexValue(src[2 * i]) * 16 + HexValue(src[2 * i + 1]);
      assert ret == ByteAt(src, i);
      if rev {
        dest[n - 1 - i] := ret;
      } else {
        dest[i] := ret;
      }
    }
    hide ByteAt;
    forall k | 0 <= k < n
      ensures dest[k] == InOrder(Unhex(src), rev)[k]
    {
      assert Written(k, n, n, rev);
    }
    assert dest[..n] == InOrder(Unhex(src), rev);
    return Success;
  }

  /** The turn byte k of the result is written in. */
  function Source(k: int, n: int, rev: bool): int {
    if rev then n - 1 - k else k
  }

  function MinInt(a: int, b: int): int {
    if a < b then a else b
  }

  /** What StrToCbuf reads from a text is what CbufToStr wrote: the same bytes when both
      were given the same direction, and the bytes reversed when not. */
  lemma TextRoundTrip(s: seq<Byte>, rev: bool, rev': bool)
    ensures |Text(s, rev)| % 2 == 0 && AllHex(Text(s, rev))
    ensures InOrder(Unhex(Text(s, rev)), rev') == if rev == rev' then s else Reverse(s)
  {
    var t := Text(s, rev);
    var o := InOrder(s, rev);
    hide Hex;
    forall i | 0 <= i < |o|
      ensures IsHex(t[2 * i]) && IsHex(t[2 * i + 1]) && HexValue(t[2 * i]) * 16 + HexValue(t[2 * i + 1]) == o[i]
    {
      assert Pair(t, i) == PairOf(o[i]);
      HexDigitBack(o[i] / 16);
      HexDigitBack(o[i] % 16);
    }
    hide HexValue, IsHex;
    assert AllHex(t) by {
      forall i | 0 <= i < |t|
        ensures IsHex(t[i])
      {
        assert i == 2 * (i / 2) || i == 2 * (i / 2) + 1;
      }
    }
    assert Unhex(t) == o;
    ReverseTwice(s);
  }

  /** And from the buffer itself, when its text ends there. */
  lemma BufferRoundTrip(buf: seq<char>, s: seq<Byte>, rev: bool)
    requires |buf| > 2 * |s| && buf[..2 * |s|] == Text(s, rev) && buf[2 * |s|] == '\0'
    ensures CString(buf).Some?
    ensures var t := CString(buf).value;
            |t| % 2 == 0 && AllHex(t) && InOrder(Unhex(t), rev) == s
  {
    TextInBuffer(buf, s, rev);
    TextRoundTrip(s, rev, rev);
    hide Text, Unhex, CString;
  }

  /** And a text in lower case is the text of its bytes. */
  lemma BytesRoundTrip(t: seq<char>, rev: bool)
    requires |t| % 2 == 0 && AllHex(t) && forall i :: 0 <= i < |t| ==> !('A' <= t[i] <= 'F')
    ensures Text(InOrder(Unhex(t), rev), rev) == t
  {
    var s := Unhex(t);
    hide Hex, Unhex, PairOf, HexValue;
    ReverseTwice(s);
    forall i | 0 <= i < |s|
      ensures Pair(Hex(s), i) == Pair(t, i)
    {
      LowerCasePair(t[2 * i], t[2 * i + 1]);
    }
    SamePairs(Hex(s), t, |s|);
  }

  lemma LowerCasePair(h: char, l: char)
    requires IsHex(h) && !('A' <= h <= 'F') && IsHex(l) && !('A' <= l <= 'F')
    ensures PairOf(HexValue(h) * 16 + HexValue(l)) == (h, l)
  {
  }
}
