/** Composition Data Page 0 (section 4.2.1.1 of the Bluetooth Mesh Profile Specification
    v1.0): its encoding, and the two passes __dcd_store makes over it. */
module DcdPage {
  import opened Bytes
  import opened Mesh

  const CONFIGURATION_SERVER := 0x0000
  const CONFIGURATION_CLIENT := 0x0001

  type Word = x: int | 0 <= x < 0x1_0000

  /** An element as the device reports it. */
  datatype Reported = Reported(loc: Word, sig: seq<Word>, vendor: seq<Model>)

  /** The page: company, product, version and replay fields in eight bytes, the feature
      bits, and the elements. */
  datatype Page = Page(head: seq<Byte>, feature: Word, elems: seq<Reported>)

  function Bytes2(w: Word): (s: seq<Byte>)
    ensures |s| == 2 && Word2(s[0], s[1]) == w
  {
    [w % 256, w / 256]
  }

  /** BUILD_UINT16 */
  function Word2(l: Byte, h: Byte): Word {
    l + 256 * h
  }

  function SigBytes(sig: seq<Word>): (s: seq<Byte>)
    ensures |s| == 2 * |sig|
  {
    if sig == [] then [] else SigBytes(sig[..|sig| - 1]) + Bytes2(sig[|sig| - 1])
  }

  predicate ValidModel(m: Model) {
    0 <= m.vid < 0x1_0000 && 0 <= m.mid < 0x1_0000
  }

  function VendorBytes(vendor: seq<Model>): (s: seq<Byte>)
    requires forall m :: m in vendor ==> ValidModel(m)
    ensures |s| == 4 * |vendor|
  {
    if vendor == [] then []
    else
      var last := vendor[|vendor| - 1];
      assert ValidModel(last) by {
        assert last in vendor;
      }
      VendorBytes(vendor[..|vendor| - 1]) + Bytes2(last.vid) + Bytes2(last.mid)
  }

  predicate ValidElem(e: Reported) {
    |e.sig| < 256 && |e.vendor| < 256 && forall m :: m in e.vendor ==> ValidModel(m)
  }

  function ElemBytes(e: Reported): (s: seq<Byte>)
    requires ValidElem(e)
    ensures |s| == 4 + ModelBytes(e)
  {
    Bytes2(e.loc) + [|e.sig|, |e.vendor|] + SigBytes(e.sig) + VendorBytes(e.vendor)
  }

  /** The bytes the models of an element take. */
  function ModelBytes(e: Reported): nat {
    2 * |e.sig| + 4 * |e.vendor|
  }

  predicate ValidElems(elems: seq<Reported>) {
    forall e :: e in elems ==> ValidElem(e)
  }

  function ElemsBytes(elems: seq<Reported>): seq<Byte>
    requires ValidElems(elems)
  {
    if elems == [] then [] else ElemsBytes(elems[..|elems| - 1]) + ElemBytes(elems[|elems| - 1])
  }

  /** A page whose length the one-byte length field of the event can give. */
  predicate ValidPage(p: Page) {
    |p.head| == 8 && |p.elems| > 0 && ValidElems(p.elems) && |ElemsBytes(p.elems)| <= 245
  }

  function Encode(p: Page): (s: seq<Byte>)
    requires ValidPage(p)
    ensures |s| <= 255
  {
    p.head + Bytes2(p.feature) + ElemsBytes(p.elems)
  }

  /** The configuration models are not kept. */
  function Kept(sig: seq<Word>): seq<int> {
    if sig == [] then []
    else
      var last := sig[|sig| - 1];
      Kept(sig[..|sig| - 1]) + (if last == CONFIGURATION_SERVER || last == CONFIGURATION_CLIENT then [] else [last])
  }

  function Decoded(elems: seq<Reported>): (r: seq<Element>)
    ensures |r| == |elems|
    ensures forall i :: 0 <= i < |elems| ==> r[i] == Element(Kept(elems[i].sig), elems[i].vendor)
  {
    seq(|elems|, i requires 0 <= i < |elems| => Element(Kept(elems[i].sig), elems[i].vendor))
  }

  lemma {:induction false} KeptShrinks(sig: seq<Word>)
    ensures |Kept(sig)| <= |sig|
    ensures forall m :: m in Kept(sig) <==> m in sig && m != CONFIGURATION_SERVER && m != CONFIGURATION_CLIENT
  {
    if sig != [] {
      KeptShrinks(sig[..|sig| - 1]);
      assert sig == sig[..|sig| - 1] + [sig[|sig| - 1]];
    }
  }

  /** What is kept keeps its order: each model is looked at by itself. */
  lemma {:induction false} KeptInOrder(a: seq<Word>, b: seq<Word>)
    ensures Kept(a + b) == Kept(a) + Kept(b)
    ensures |a| == 1 ==> Kept(a) == if a[0] <= 1 then [] else [a[0]]
  {
    if |a| == 1 {
      assert a[..0] == [];
    }
    if b == [] {
      assert a + b == a;
    } else {
      KeptInOrder(a, b[..|b| - 1]);
      assert (a + b)[..|a + b| - 1] == a + b[..|b| - 1];
    }
  }

  /* Where things lie in a page */

  lemma {:induction false} SigAt(sig: seq<Word>, k: nat)
    requires k < |sig|
    ensures Word2(SigBytes(sig)[2 * k], SigBytes(sig)[2 * k + 1]) == sig[k]
  {
    if k < |sig| - 1 {
      SigAt(sig[..|sig| - 1], k);
    }
  }

  function ModelFrom(data: seq<Byte>, at: nat): Model
    requires at + 4 <= |data|
  {
    Model(Word2(data[at], data[at + 1]), Word2(data[at + 2], data[at + 3]))
  }

  /** A model lies in a slice as it lies in the whole. */
  lemma ModelShift(data: seq<Byte>, i: nat, n: nat, at: nat)
    requires i + n <= |data| && at + 4 <= n
    ensures ModelFrom(data[i..i + n], at) == ModelFrom(data, i + at)
  {
  }

  lemma {:induction false} VendorAt(vendor: seq<Model>, k: nat)
    requires k < |vendor| && forall m :: m in vendor ==> ValidModel(m)
    ensures ModelFrom(VendorBytes(vendor), 4 * k) == vendor[k]
  {
    var n, last := |vendor| - 1, vendor[|vendor| - 1];
    var front := VendorBytes(vendor[..n]);
    assert last in vendor && ValidModel(last);
    assert VendorBytes(vendor) == front + Bytes2(last.vid) + Bytes2(last.mid);
    if k < n {
      VendorAt(vendor[..n], k);
      hide VendorBytes, Bytes2;
      var all := VendorBytes(vendor);
      assert front == all[0..0 + 4 * n];
      ModelShift(all, 0, 4 * n, 4 * k);
    }
  }

  /** The elements up to the k-th are a prefix of the bytes of all. */
  lemma {:induction false} ElemsPrefix(elems: seq<Reported>, k: nat)
    requires ValidElems(elems) && k <= |elems|
    ensures ValidElems(elems[..k])
    ensures ElemsBytes(elems[..k]) <= ElemsBytes(elems)
    decreases |elems| - k
  {
    if k < |elems| {
      ElemsPrefix(elems, k + 1);
      assert elems[..k + 1][..k] == elems[..k];
    } else {
      assert elems[..k] == elems;
    }
  }

  /** Element k of an encoded page starts behind those before it. */
  lemma ElemAt(p: Page, k: nat)
    requires ValidPage(p) && k < |p.elems|
    ensures ValidElems(p.elems[..k]) && ValidElems(p.elems[..k + 1])
    ensures var at := 10 + |ElemsBytes(p.elems[..k])|;
            var s := ElemBytes(p.elems[k]);
            at + |s| == 10 + |ElemsBytes(p.elems[..k + 1])| <= |Encode(p)| && Encode(p)[at..at + |s|] == s
  {
    ElemsPrefix(p.elems, k);
    ElemsPrefix(p.elems, k + 1);
    assert p.elems[..k + 1][..k] == p.elems[..k];
    var b, c := ElemsBytes(p.elems[..k]), ElemsBytes(p.elems[..k + 1]);
    assert c == b + ElemBytes(p.elems[k]);
    var all := ElemsBytes(p.elems);
    assert all[..|c|] == c;
    assert all[|b|..|c|] == ElemBytes(p.elems[k]);
    assert Encode(p)[10..] == all;
    assert Encode(p)[10 + |b|..10 + |c|] == Encode(p)[10..][|b|..|c|];
  }

  /* The second pass */

  /** The SIG models of an element read from index i on: in place, each kept model moves
      down over those left out. */
  method ReadSig(data: seq<Byte>, i: nat, count: nat, ghost sig: seq<Word>) returns (models: seq<int>)
    requires count == |sig| && i + 2 * count <= |data| && data[i..i + 2 * count] == SigBytes(sig)
    ensures models == Kept(sig)
  {
    var buf := new int[count];
    var offset, ms := 0, 0;
    while ms < count
      invariant 0 <= offset <= ms <= count
      invariant buf[..ms - offset] == Kept(sig[..ms])
    {
      SigAt(sig, ms);
      assert data[i..i + 2 * count][2 * ms] == data[i + 2 * ms]
             && data[i..i + 2 * count][2 * ms + 1] == data[i + 2 * ms + 1];
      var mdid := Word2(data[i + 2 * ms], data[i + 2 * ms + 1]);
      assert sig[..ms + 1][..ms] == sig[..ms];
      ms := ms + 1;
      if mdid == CONFIGURATION_CLIENT || mdid == CONFIGURATION_SERVER {
        offset := offset + 1;
        continue;
      }
      buf[ms - 1 - offset] := mdid;
    }
    assert sig[..count] == sig;
    return buf[..count - offset];
  }

  lemma VendorIn(data: seq<Byte>, i: nat, vendor: seq<Model>, k: nat)
    requires k < |vendor| && forall m :: m in vendor ==> ValidModel(m)
    requires i + 4 * |vendor| <= |data| && data[i..i + 4 * |vendor|] == VendorBytes(vendor)
    ensures ModelFrom(data, i + 4 * k) == vendor[k]
  {
    hide VendorBytes, ModelFrom;
    VendorAt(vendor, k);
    ModelShift(data, i, 4 * |vendor|, 4 * k);
  }

  method ReadVendor(data: seq<Byte>, i: nat, count: nat, ghost vendor: seq<Model>) returns (models: seq<Model>)
    requires (forall m :: m in vendor ==> ValidModel(m))
    requires count == |vendor| && i + 4 * count <= |data| && data[i..i + 4 * count] == VendorBytes(vendor)
    ensures models == vendor
  {
    var none := Model(0, 0);
    var buf := new Model[count](_ => none);
    hide VendorBytes, ModelFrom, ValidModel;
    for ms := 0 to count
      invariant forall x :: 0 <= x < ms ==> buf[x] == vendor[x]
    {
      VendorIn(data, i, vendor, ms);
      buf[ms] := ModelFrom(data, i + 4 * ms);
    }
    return buf[..];
  }

  lemma Within(data: seq<Byte>, i: nat, n: nat, at: nat, k: nat)
    requires i + n <= |data| && at + k <= n
    ensures data[i..i + n][at..at + k] == data[i + at..i + at + k]
  {
    var s, t := data[i..i + n][at..at + k], data[i + at..i + at + k];
    forall j | 0 <= j < k
      ensures s[j] == t[j]
    {
      assert s[j] == data[i..i + n][at + j] == data[i + at + j];
    }
  }

  lemma ElemParts(e: Reported)
    requires ValidElem(e)
    ensures var s := ElemBytes(e);
            && s[2] == |e.sig| && s[3] == |e.vendor|
            && s[4..4 + 2 * |e.sig|] == SigBytes(e.sig)
               && s[4 + 2 * |e.sig|..4 + 2 * |e.sig| + 4 * |e.vendor|] == VendorBytes(e.vendor)
  {
  }

  /** One element read from index i on. */
  method ReadElem(data: seq<Byte>, i: nat, ghost e: Reported) returns (elem: Element, next: nat)
    requires ValidElem(e) && i + 4 + ModelBytes(e) <= |data| && data[i..i + 4 + ModelBytes(e)] == ElemBytes(e)
    ensures elem == Element(Kept(e.sig), e.vendor) && next == i + 4 + ModelBytes(e)
  {
    ghost var s := data[i..i + 4 + ModelBytes(e)];
    ElemParts(e);
    hide ElemBytes;
    assert s[2] == data[i + 2] && s[3] == data[i + 3];
    var sigmCnt: nat, vmCnt: nat := data[i + 2], data[i + 3];
    next := i + 4;
    Within(data, i, |s|, 4, 2 * sigmCnt);
    var sig := ReadSig(data, next, sigmCnt, e.sig);
    next := next + 2 * sigmCnt;
    Within(data, i, |s|, 4 + 2 * sigmCnt, 4 * vmCnt);
    var vm := ReadVendor(data, next, vmCnt, e.vendor);
    next := next + 4 * vmCnt;
    elem := Element(sig, vm);
  }

  /** The second pass for a number of elements: it undoes the encoding of that many elements,
      but for the configuration models, and reads nothing outside the page unless it is told
      of more elements than there are; then it reads on past the last one. */
  method Decode(data: seq<Byte>, count: nat, ghost p: Page) returns (inside: bool, feature: nat, elems: seq<Element>)
    requires ValidPage(p) && data == Encode(p)
    ensures inside <==> count <= |p.elems|
    ensures inside ==> feature == p.feature && elems == Decoded(p.elems[..count])
  {
    feature := Word2(data[8], data[9]);
    assert data[8..10] == Bytes2(p.feature);
    assert data[8] == data[8..10][0] && data[9] == data[8..10][1];
    hide Word2, Bytes2, ValidPage, Encode;
    var i := 10;
    elems := [];
    ElemHere(p, 0);
    hide Start, Decoded;
    var e := 0;
    while e < count
      invariant 0 <= e <= count && e <= |p.elems|
      invariant i == Start(p, e) && elems == Decoded(p.elems[..e])
    {
      ElemHere(p, e);
      if i + 4 > |data| {
        return false, feature, elems;
      }
      var elem, next := ReadElem(data, i, p.elems[e]);
      elems := elems + [elem];
      i := next;
      e := e + 1;
    }
    inside := true;
  }

  /** Where element e of an encoded page begins. */
  function Start(p: Page, e: nat): nat
    requires ValidPage(p) && e <= |p.elems|
  {
    ElemsPrefix(p.elems, e);
    10 + |ElemsBytes(p.elems[..e])|
  }

  /** What the second pass finds there: the element, or the end of the page. */
  lemma ElemHere(p: Page, e: nat)
    requires ValidPage(p) && e <= |p.elems|
    ensures Start(p, 0) == 10 && Decoded(p.elems[..0]) == []
    ensures e == |p.elems| ==> Start(p, e) == |Encode(p)|
    ensures e < |p.elems| ==>
              var r, i := p.elems[e], Start(p, e);
              && ValidElem(r) && Start(p, e + 1) == i + 4 + ModelBytes(r) <= |Encode(p)|
              && Encode(p)[i..i + 4 + ModelBytes(r)] == ElemBytes(r)
              && Decoded(p.elems[..e + 1]) == Decoded(p.elems[..e]) + [Element(Kept(r.sig), r.vendor)]
  {
    assert p.elems[..0] == [] && p.elems[..|p.elems|] == p.elems;
    PageEnd(p);
    if e < |p.elems| {
      ElemAt(p, e);
      DecodedGrows(p.elems, e);
      hide Encode, ElemBytes, ElemsBytes, Decoded, ValidPage, Kept, ModelBytes;
    }
  }

  /** Two bytes from index at on are this number, the lower byte first. */
  predicate NumberAt(data: seq<Byte>, at: nat, v: int) {
    at + 2 <= |data| && var low: int, high: int := data[at], data[at + 1]; low + 0x100 * high == v
  }

  /** The element lies from index at on: its location, its two counts, its SIG models of two
      bytes and its vendor models of four, vendor first. */
  predicate ElemLies(data: seq<Byte>, at: nat, r: Reported, k: nat) {
    && NumberAt(data, at, r.loc) && at + 4 <= |data| && data[at + 2] == |r.sig| && data[at + 3] == |r.vendor|
    && (k < |r.sig| ==> NumberAt(data, at + 4 + 2 * k, r.sig[k]))
    && (k < |r.vendor| ==>
          && NumberAt(data, at + 4 + 2 * |r.sig| + 4 * k, r.vendor[k].vid)
          && NumberAt(data, at + 4 + 2 * |r.sig| + 4 * k + 2, r.vendor[k].mid))
  }

  /** The page byte for byte: eight bytes and the feature word, and each element where those
      before it end. */
  lemma PageLayout(p: Page, e: nat, k: nat)
    requires ValidPage(p) && e < |p.elems|
    ensures Encode(p)[..8] == p.head && NumberAt(Encode(p), 8, p.feature)
    ensures Start(p, 0) == 10 && Start(p, e + 1) == Start(p, e) + 4 + 2 * |p.elems[e].sig| + 4 * |p.elems[e].vendor|
    ensures Start(p, |p.elems|) == |Encode(p)|
    ensures ElemLies(Encode(p), Start(p, e), p.elems[e], k)
  {
    var data := Encode(p);
    assert data[8..10] == Bytes2(p.feature) && data[8] == data[8..10][0] && data[9] == data[8..10][1];
    assert data[..8] == p.head;
    hide Start, Encode, ElemsBytes, ElemBytes, ValidElems, ValidPage, Decoded, ElemLies;
    ElemHere(p, 0);
    ElemHere(p, e);
    ElemHere(p, |p.elems|);
    ElemLayout(data, Start(p, e), p.elems[e], k);
  }

  lemma ElemLayout(data: seq<Byte>, at: nat, r: Reported, k: nat)
    requires ValidElem(r) && at + 4 + ModelBytes(r) <= |data| && data[at..at + 4 + ModelBytes(r)] == ElemBytes(r)
    ensures ElemLies(data, at, r, k)
  {
    hide ElemBytes, SigBytes, VendorBytes, NumberAt, Word2, ValidModel;
    ElemFront(data, at, r);
    ElemModels(data, at, r);
    if k < |r.sig| {
      SigIn(data, at + 4, r.sig, k);
    }
    if k < |r.vendor| {
      VendorNumbers(data, at + 4 + 2 * |r.sig|, r.vendor, k);
    }
  }

  lemma ElemFront(data: seq<Byte>, at: nat, r: Reported)
    requires ValidElem(r) && at + 4 + ModelBytes(r) <= |data| && data[at..at + 4 + ModelBytes(r)] == ElemBytes(r)
    ensures NumberAt(data, at, r.loc) && data[at + 2] == |r.sig| && data[at + 3] == |r.vendor|
  {
    var s := data[at..at + 4 + ModelBytes(r)];
    assert s[0] == data[at] && s[1] == data[at + 1] && s[2] == data[at + 2] && s[3] == data[at + 3];
    assert s[..2] == Bytes2(r.loc) && s[0] == s[..2][0] && s[1] == s[..2][1];
  }

  lemma ElemModels(data: seq<Byte>, at: nat, r: Reported)
    requires ValidElem(r) && at + 4 + ModelBytes(r) <= |data| && data[at..at + 4 + ModelBytes(r)] == ElemBytes(r)
    ensures data[at + 4..at + 4 + 2 * |r.sig|] == SigBytes(r.sig)
    ensures data[at + 4 + 2 * |r.sig|..at + 4 + 2 * |r.sig| + 4 * |r.vendor|] == VendorBytes(r.vendor)
  {
    ElemParts(r);
    hide ElemBytes, SigBytes, VendorBytes;
    Within(data, at, 4 + ModelBytes(r), 4, 2 * |r.sig|);
    Within(data, at, 4 + ModelBytes(r), 4 + 2 * |r.sig|, 4 * |r.vendor|);
  }

  lemma VendorNumbers(data: seq<Byte>, i: nat, vendor: seq<Model>, k: nat)
    requires k < |vendor| && forall m :: m in vendor ==> ValidModel(m)
    requires i + 4 * |vendor| <= |data| && data[i..i + 4 * |vendor|] == VendorBytes(vendor)
    ensures NumberAt(data, i + 4 * k, vendor[k].vid) && NumberAt(data, i + 4 * k + 2, vendor[k].mid)
  {
    VendorIn(data, i, vendor, k);
    hide VendorBytes;
  }

  lemma SigIn(data: seq<Byte>, i: nat, sig: seq<Word>, k: nat)
    requires k < |sig| && i + 2 * |sig| <= |data| && data[i..i + 2 * |sig|] == SigBytes(sig)
    ensures NumberAt(data, i + 2 * k, sig[k])
  {
    SigAt(sig, k);
    var words := data[i..i + 2 * |sig|];
    assert words[2 * k] == data[i + 2 * k] && words[2 * k + 1] == data[i + 2 * k + 1];
  }

  lemma DecodedGrows(elems: seq<Reported>, e: nat)
    requires e < |elems|
    ensures Decoded(elems[..e + 1]) == Decoded(elems[..e]) + [Element(Kept(elems[e].sig), elems[e].vendor)]
  {
    hide Kept;
  }

  lemma PageEnd(p: Page)
    requires ValidPage(p)
    ensures |Encode(p)| == 10 + |ElemsBytes(p.elems)|
  {
  }

  /* The first pass */

  /** The bytes the models of the first element take, by its two counts. */
  function FirstModels(data: seq<Byte>): nat
    requires |data| >= 14
  {
    var sigmCnt: int, vmCnt: int := data[12], data[13];
    2 * sigmCnt + 4 * vmCnt
  }

  /** After k turns the first pass has its one-byte index here: each turn adds the models
      of the first element and nothing else. */
  function IndexAfter(data: seq<Byte>, k: nat): nat
    requires |data| >= 14
  {
    if k == 0 then 14 else (IndexAfter(data, k - 1) + FirstModels(data)) % 256
  }

  lemma {:induction false} IndexIs(data: seq<Byte>, k: nat)
    requires |data| >= 14
    ensures IndexAfter(data, k) == (14 + k * FirstModels(data)) % 256
  {
    var t := FirstModels(data);
    if k > 0 {
      IndexIs(data, k - 1);
      hide FirstModels;
      assert 14 + k * t == (14 + (k - 1) * t) + t;
      ModAdds(14 + (k - 1) * t, t);
    }
  }

  lemma ModAdds(a: nat, b: nat)
    ensures (a % 256 + b) % 256 == (a + b) % 256
  {
  }

  /** The first pass stops after k turns. */
  ghost predicate StopsAt(data: seq<Byte>, k: nat)
    requires |data| >= 14
  {
    k >= 1 && IndexAfter(data, k) >= |data| && forall j :: 1 <= j < k ==> IndexAfter(data, j) < |data|
  }

  /** The first pass finds one number at most. */
  lemma StopsOnce(data: seq<Byte>, j: nat, k: nat)
    requires |data| >= 14
    ensures StopsAt(data, j) && StopsAt(data, k) ==> j == k
  {
  }

  /** The index repeats itself after 128 turns: it is a byte, and models take even numbers of bytes. */
  lemma IndexRepeats(data: seq<Byte>, k: nat)
    requires |data| >= 14
    ensures IndexAfter(data, k + 128) == IndexAfter(data, k)
  {
    var sigmCnt: int, vmCnt: int := data[12], data[13];
    var half := sigmCnt + 2 * vmCnt;
    assert FirstModels(data) == 2 * half;
    assert (k + 128) * (2 * half) == k * (2 * half) + 256 * half;
    IndexIs(data, k);
    IndexIs(data, k + 128);
    hide IndexAfter, FirstModels;
    WholeTurns(14 + k * (2 * half), half);
  }

  lemma WholeTurns(a: nat, n: nat)
    ensures (a + 256 * n) % 256 == a % 256
  {
  }

  /** A pass that stops does so within 128 turns. */
  lemma StopsSoon(data: seq<Byte>, k: nat)
    requires |data| >= 14 && StopsAt(data, k)
    ensures k <= 128
  {
    if k > 128 {
      IndexRepeats(data, k - 128);
    }
  }

  /** The first pass: the number of elements it finds, or none when it never ends.  It repeats
      itself after 128 turns, where the method gives up in its stead. */
  method CountElements(data: seq<Byte>) returns (eles: Option<nat>)
    requires 14 <= |data| <= 255
    ensures eles.Some? ==> StopsAt(data, eles.value)
    ensures eles.None? ==> forall k: nat :: !StopsAt(data, k)
  {
    var i: nat, sigmCnt: nat, vmCnt: nat := 14, data[12], data[13];
    var count := 0;
    assert FirstModels(data) == 2 * sigmCnt + 4 * vmCnt;
    while count < 128
      invariant 0 <= count <= 128 && i == IndexAfter(data, count)
      invariant forall j :: 1 <= j <= count ==> IndexAfter(data, j) < |data|
    {
      hide FirstModels;
      i := (i + 2 * sigmCnt + 4 * vmCnt) % 256;
      count := count + 1;
      if i >= |data| {
        return Some(count);
      }
    }
    forall k: nat
      ensures !StopsAt(data, k)
    {
      if StopsAt(data, k) {
        StopsSoon(data, k);
      }
    }
    return None;
  }

  /** What becomes of a page: stored, read on past its last element, or never finished. */
  datatype Stored = Stored(feature: nat, elems: seq<Element>) | PastTheEnd | NeverEnds

  /** The elements stored of a page: those counted, when there are as many. */
  ghost predicate StoredAs(p: Page, elems: seq<Element>)
    requires ValidPage(p)
  {
    |Encode(p)| >= 14 && exists k: nat :: StopsAt(Encode(p), k) && k <= |p.elems| && elems == Decoded(p.elems[..k])
  }

  /** __dcd_store: both passes.  The whole page is stored exactly when the first pass finds
      the number of its elements; fewer are stored when it finds fewer. */
  method Store(data: seq<Byte>, ghost p: Page) returns (r: Stored)
    requires ValidPage(p) && data == Encode(p)
    ensures |data| >= 14
    ensures r.Stored? ==> r.feature == p.feature && StoredAs(p, r.elems)
    ensures r.PastTheEnd? ==> exists k: nat :: StopsAt(data, k) && k > |p.elems|
    ensures r.NeverEnds? ==> forall k: nat :: !StopsAt(data, k)
    ensures r == Stored(p.feature, Decoded(p.elems)) <==> StopsAt(data, |p.elems|)
  {
    FirstCounts(p);
    var count := CountElements(data);
    if count.None? {
      return NeverEnds;
    }
    var inside, feature, elems := Decode(data, count.value, p);
    StopsOnce(data, count.value, |p.elems|);
    assert p.elems[..|p.elems|] == p.elems;
    if !inside {
      return PastTheEnd;
    }
    assert |elems| == count.value;
    return Stored(feature, elems);
  }

  /** The bytes at which the first pass looks are those of the first element. */
  lemma FirstCounts(p: Page)
    requires ValidPage(p)
    ensures |Encode(p)| >= 14 && FirstModels(Encode(p)) == ModelBytes(p.elems[0])
  {
    ElemAt(p, 0);
    assert p.elems[..0] == [];
    var s := ElemBytes(p.elems[0]);
    assert Encode(p)[10..10 + |s|][2] == Encode(p)[12] && Encode(p)[10..10 + |s|][3] == Encode(p)[13];
  }

  /** On every page the first pass finds n elements exactly when n is the least number of times
      that the t bytes of models of the first element, in one-byte arithmetic, reach the end of the page. */
  lemma CountExactly(p: Page, t: nat, n: nat)
    requires ValidPage(p) && t == ModelBytes(p.elems[0])
    ensures |Encode(p)| >= 14
    ensures var len := |Encode(p)|;
            StopsAt(Encode(p), n) <==> n >= 1 && Reaches(t, n, len) && forall j :: 1 <= j < n ==> !Reaches(t, j, len)
  {
    FirstCounts(p);
    hide Encode, ModelBytes, FirstModels, ValidPage;
    var data := Encode(p);
    hide IndexAfter;
    forall j: nat
      ensures Reaches(t, j, |data|) == (IndexAfter(data, j) >= |data|)
    {
      IndexIs(data, j);
    }
    hide Reaches;
  }

  predicate Reaches(t: nat, n: nat, len: nat) {
    (14 + n * t) % 256 >= len
  }

  /** As long as its index does not wrap that is when n times the models of the first element
      reach the end of the page and n - 1 times do not. */
  lemma CountStraight(p: Page, n: nat)
    requires ValidPage(p) && n >= 1 && 14 + n * ModelBytes(p.elems[0]) <= 255
    ensures |Encode(p)| >= 14
    ensures StopsAt(Encode(p), n) <==>
              14 + n * ModelBytes(p.elems[0]) >= |Encode(p)|
                  && (n == 1 || 14 + (n - 1) * ModelBytes(p.elems[0]) < |Encode(p)|)
  {
    FirstCounts(p);
    var t, data := ModelBytes(p.elems[0]), Encode(p);
    hide ModelBytes, FirstModels, Encode, ValidPage;
    IndexStraight(data, n, n);
    if n > 1 {
      IndexStraight(data, n - 1, n);
    }
    forall j: nat | 1 <= j < n
      ensures IndexAfter(data, j) <= 14 + (n - 1) * t
    {
      IndexStraight(data, j, n);
      Scale(j, n - 1, t);
    }
    hide IndexAfter;
  }

  /** The index before it wraps. */
  lemma IndexStraight(data: seq<Byte>, j: nat, n: nat)
    requires |data| >= 14 && j <= n && 14 + n * FirstModels(data) <= 255
    ensures IndexAfter(data, j) == 14 + j * FirstModels(data)
  {
    IndexIs(data, j);
    hide IndexAfter, FirstModels;
    Scale(j, n, FirstModels(data));
  }

  lemma Scale(j: nat, n: nat, t: nat)
    requires j <= n
    ensures j * t <= n * t
  {
  }

  /** The length of a page with this many elements. */
  lemma {:induction false} ElemsLength(elems: seq<Reported>)
    requires ValidElems(elems)
    ensures |ElemsBytes(elems)| == 4 * |elems| + AllModelBytes(elems)
  {
    if elems != [] {
      ElemsLength(elems[..|elems| - 1]);
    }
  }

  function AllModelBytes(elems: seq<Reported>): nat {
    if elems == [] then 0 else AllModelBytes(elems[..|elems| - 1]) + ModelBytes(elems[|elems| - 1])
  }

  lemma PageLength(p: Page)
    requires ValidPage(p)
    ensures |Encode(p)| == 10 + 4 * |p.elems| + AllModelBytes(p.elems)
  {
    PageEnd(p);
    ElemsLength(p.elems);
  }

  /** On every page with one element the first pass finds one. */
  lemma OneElementCounted(p: Page)
    requires ValidPage(p) && |p.elems| == 1
    ensures |Encode(p)| >= 14 && StopsAt(Encode(p), 1)
  {
    PageLength(p);
    assert p.elems[..0] == [];
    hide Encode, ValidPage, ModelBytes;
    CountStraight(p, 1);
  }

  /** A page with two elements is counted right exactly when the models of the first take at
      least four bytes more than those of the second, whose four bytes in front are not
      counted, and not so many that the index wraps. */
  lemma TwoElementsCountedExactly(p: Page)
    requires ValidPage(p) && |p.elems| == 2
    ensures |Encode(p)| >= 14
    ensures StopsAt(Encode(p), 2) <==>
              ModelBytes(p.elems[0]) >= ModelBytes(p.elems[1]) + 4 && ModelBytes(p.elems[0]) <= 120
  {
    PageLength(p);
    assert p.elems[..1][..0] == [] && |Encode(p)| <= 255;
    assert AllModelBytes(p.elems) == AllModelBytes(p.elems[..1]) + ModelBytes(p.elems[1]);
    assert AllModelBytes(p.elems[..1]) == ModelBytes(p.elems[0]);
    hide Encode, ValidPage, ModelBytes, AllModelBytes, StopsAt;
    CountExactly(p, ModelBytes(p.elems[0]), 2);
    var t, u := ModelBytes(p.elems[0]), ModelBytes(p.elems[1]);
    TwoTurns(t, u);
  }

  lemma TwoTurns(t: nat, u: nat)
    requires 18 + t + u <= 255
    ensures !Reaches(t, 1, 18 + t + u)
    ensures Reaches(t, 2, 18 + t + u) <==> t >= u + 4 && t <= 120
  {
  }

  /** On a page with several elements the first of which has no models the first pass never
      ends: its index stays where it is. */
  lemma FirstWithoutModelsNeverEnds(p: Page, k: nat)
    requires ValidPage(p) && |p.elems| >= 2 && ModelBytes(p.elems[0]) == 0
    ensures |Encode(p)| >= 14 && !StopsAt(Encode(p), k)
  {
    PageLength(p);
    hide Encode, ValidPage, ModelBytes, AllModelBytes;
    CountExactly(p, ModelBytes(p.elems[0]), k);
  }

  /** Three elements whose models take 40, 4 and 4 bytes are counted as two. */
  lemma ThreeCountedAsTwo(p: Page)
    requires ValidPage(p) && |p.elems| == 3
    requires ModelBytes(p.elems[0]) == 40 && ModelBytes(p.elems[1]) == 4 && ModelBytes(p.elems[2]) == 4
    ensures |Encode(p)| >= 14 && StopsAt(Encode(p), 2)
  {
    PageLength(p);
    assert p.elems[..2][..1] == p.elems[..1] && p.elems[..1][..0] == [];
    assert AllModelBytes(p.elems) == AllModelBytes(p.elems[..2]) + 4;
    assert AllModelBytes(p.elems[..2]) == AllModelBytes(p.elems[..1]) + 4;
    assert AllModelBytes(p.elems[..1]) == 40;
    hide Encode, ValidPage, ModelBytes, AllModelBytes;
    CountStraight(p, 2);
  }
}
