/** The values the configuration engine works on: composition data, node
    configuration, application keys, and the commands it sends to a node. */
module Mesh {
  import opened Bits
  import opened Odometer

  datatype Option<+T> = None | Some(value: T)

  const SIG_VENDOR_ID := 0xFFFF

  /** A model is a vendor and a model number; SIG models carry vendor SIG_VENDOR_ID. */
  datatype Model = Model(vid: int, mid: int)

  datatype Element = Element(sig: seq<int>, vendor: seq<Model>)

  function ModelCount(el: Element): nat {
    |el.sig| + |el.vendor|
  }

  /** The iterators number the models of an element SIG models first. */
  function ModelAt(el: Element, m: int): Model
    requires 0 <= m < ModelCount(el)
  {
    if m >= |el.sig| then el.vendor[m - |el.sig|] else Model(SIG_VENDOR_ID, el.sig[m])
  }

  /** The models of an element in the order of the iterators are its SIG models, each with the
      vendor of all SIG models, and then its vendor models. */
  lemma ModelsInOrder(el: Element)
    ensures seq(ModelCount(el), m requires 0 <= m < ModelCount(el) => ModelAt(el, m))
         == seq(|el.sig|, i requires 0 <= i < |el.sig| => Model(SIG_VENDOR_ID, el.sig[i])) + el.vendor
  {
  }

  datatype AppKey = AppKey(refid: int, id: int)

  /** The first active key with this reference has this id. */
  ghost predicate FirstKey(keys: seq<AppKey>, refid: int, id: int) {
    exists i :: 0 <= i < |keys| && keys[i] == AppKey(refid, id) && forall j :: 0 <= j < i ==> keys[j].refid != refid
  }

  /** The id of the first active key with this reference, if any. */
  function KeyId(keys: seq<AppKey>, refid: int): (id: Option<int>)
    ensures forall x :: id == Some(x) <==> FirstKey(keys, refid, x)
    ensures id.Some? <==> exists i :: 0 <= i < |keys| && keys[i].refid == refid
  {
    FirstKeyOfRest(keys, refid);
    if |keys| == 0 then None
    else if keys[0].refid == refid then Some(keys[0].id)
    else
      var id := KeyId(keys[1..], refid);
      assert id.Some? ==> exists i :: 0 <= i < |keys| && keys[i].refid == refid by {
        if id.Some? {
          var i :| 0 <= i < |keys[1..]| && keys[1..][i].refid == refid;
          assert keys[i + 1].refid == refid;
        }
      }
      id
  }

  lemma FirstKeyOfRest(keys: seq<AppKey>, refid: int)
    ensures keys != [] && keys[0].refid == refid ==> forall x :: FirstKey(keys, refid, x) <==> x == keys[0].id
    ensures keys != [] && keys[0].refid != refid ==>
              forall x :: FirstKey(keys, refid, x) <==> FirstKey(keys[1..], refid, x)
  {
    forall x | keys != [] && keys[0].refid == refid
      ensures FirstKey(keys, refid, x) <==> x == keys[0].id
    {
      if x == keys[0].id {
        assert keys[0] == AppKey(refid, x);
      }
    }
    forall x | keys != [] && keys[0].refid != refid
      ensures FirstKey(keys, refid, x) <==> FirstKey(keys[1..], refid, x)
    {
      if FirstKey(keys, refid, x) {
        var i :| 0 <= i < |keys| && keys[i] == AppKey(refid, x) && forall j :: 0 <= j < i ==> keys[j].refid != refid;
        assert keys[1..][i - 1] == AppKey(refid, x);
      }
      if FirstKey(keys[1..], refid, x) {
        var i :| 0 <= i < |keys[1..]| && keys[1..][i] == AppKey(refid, x)
          && forall j :: 0 <= j < i ==> keys[1..][j].refid != refid;
        assert keys[i + 1] == AppKey(refid, x);
        forall j | 0 <= j < i + 1
          ensures keys[j].refid != refid
        {
          assert j > 0 ==> keys[j] == keys[1..][j - 1];
        }
      }
    }
  }

  predicate Resolvable(keys: seq<AppKey>, refid: int) {
    KeyId(keys, refid).Some?
  }

  datatype Publication = Publication(addr: int, aki: int, ttl: int, period: int, cnt: int, intv: int)

  datatype TxParam = TxParam(cnt: int, intv: int)

  /** What a run reads but never changes.  An absent list is the empty one. */
  datatype NodeConfig = NodeConfig(addr: int, bindings: seq<int>, pub: Option<Publication>, sublist: seq<int>,
                                   ttl: Option<int>, netTxp: Option<TxParam>, relayTxp: Option<TxParam>, target: nat)

  /** A node of the database: its configuration, the feature bits already set on it, and
      the error bits and done flag the end states record. */
  datatype Node = Node(cfg: NodeConfig, current: nat, err: nat, done: bool)

  const RELAY := 0
  const PROXY := 1
  const FRIEND := 2
  const LPN := 3
  const NETTX := 4
  const TTL := 5
  const SNB := 6

  datatype Command =
    | GetDcd
    | AddKey(key: int)
    | Bind(e: int, model: Model, key: int)
    | SetPub(e: int, model: Model, key: int, addr: int, ttl: int, period: int, cnt: int, intv: int)
    | SetSub(e: int, model: Model, addr: int)
    | AddSub(e: int, model: Model, addr: int)
    | Feature(which: nat, args: seq<int>)
    | Reset

  /** The models without publication; the comparison is on the model number alone. */
  const NOT_PUB := [0x1007, 0x100A, 0x100F, 0x1201, 0x1204, 0x1207, 0x1301, 0x1304, 0x1308, 0x130D]

  const NOT_SUB := [0x1201]

  predicate PubSupported(mid: int) {
    mid !in NOT_PUB
  }

  predicate SubSupported(mid: int) {
    mid !in NOT_SUB
  }

  function B2I(b: bool): int {
    if b then 1 else 0
  }

  /** The parameters the command for feature bit w carries, absent when the
      configuration does not hold them. */
  function FeatureArgs(cfg: NodeConfig, w: nat): Option<seq<int>> {
    var on := B2I(Bit(cfg.target, w));
    if w == RELAY then
      if cfg.relayTxp.None? then None
      else
        var t := cfg.relayTxp.value;
        Some([on, t.cnt, if t.intv != 0 then t.intv else 50])
    else if w == TTL then
      if cfg.ttl.None? then None else Some([cfg.ttl.value])
    else if w == NETTX then
      if cfg.netTxp.None? then None else Some([cfg.netTxp.value.cnt, cfg.netTxp.value.intv])
    else Some([on])
  }

  /** The feature bits that still differ. */
  function Diff(n: Node): nat {
    Xor(n.cfg.target, n.current)
  }

  /** The feature bits a command exists for. */
  predicate Settable(w: nat) {
    w == RELAY || w == PROXY || w == FRIEND || w == NETTX || w == TTL || w == SNB
  }

  /** What is left after a feature was set: its bit in current follows target. */
  function FeatureSet(n: Node, w: nat): Node {
    n.(current := if Bit(n.cfg.target, w) then SetBit(n.current, w) else ClrBit(n.current, w))
  }

  /** Setting a feature that differs removes exactly that bit from the difference. */
  lemma FeatureSetClears(n: Node, w: nat)
    requires Bit(Diff(n), w)
    ensures Diff(FeatureSet(n, w)) == ClrBit(Diff(n), w)
    ensures PopCount(Diff(FeatureSet(n, w))) == PopCount(Diff(n)) - 1
  {
    var n' := FeatureSet(n, w);
    forall i: nat
      ensures Bit(Diff(n'), i) == Bit(ClrBit(Diff(n), w), i)
    {
      XorBits(n.cfg.target, n.current, i);
      XorBits(n.cfg.target, n'.current, i);
      ClrBitBits(Diff(n), w, i);
      SetBitBits(n.current, w, i);
      ClrBitBits(n.current, w, i);
    }
    SameBits(Diff(n'), ClrBit(Diff(n), w));
    ClrBitSmaller(Diff(n), w);
  }
}
