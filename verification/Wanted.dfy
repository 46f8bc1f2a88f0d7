/** What a configuration asks for, said of its own values: what a publication command and a
    feature command carry, and which commands may be sent to a node at all. */
module Wanted {
  import opened Bits
  import opened Odometer
  import opened Mesh
  import opened Slot
  import opened Session

  /** The command sets this publication, under this key, for the model. */
  predicate Carries(cmd: Command, k: ModelKey, key: int, p: Publication) {
    && cmd.SetPub? && (cmd.e, cmd.model) == k && cmd.key == key
    && cmd.addr == p.addr && cmd.ttl == p.ttl && cmd.period == p.period && cmd.cnt == p.cnt
    && (p.intv != 0 ==> cmd.intv == p.intv) && (p.intv == 0 ==> cmd.intv == 50)
  }

  lemma PubCommandCarries(e: int, model: Model, key: int, p: Publication, cmd: Command)
    ensures cmd == PubCommand(e, model, key, p) <==> Carries(cmd, (e, model), key, p)
  {
  }

  /** The values of feature b as the configuration has them: on or off by the bit of the
      target, and the parameters of relay, network transmit and time to live. */
  predicate Asked(cfg: NodeConfig, b: nat, args: seq<int>) {
    && (b == RELAY || b == PROXY || b == FRIEND || b == SNB ==>
          |args| >= 1 && args[0] == if Bit(cfg.target, b) then 1 else 0)
    && (b == PROXY || b == FRIEND || b == SNB ==> |args| == 1)
    && (b == RELAY ==>
          && |args| == 3 && cfg.relayTxp.Some? && args[1] == cfg.relayTxp.value.cnt
          && args[2] == if cfg.relayTxp.value.intv == 0 then 50 else cfg.relayTxp.value.intv)
    && (b == TTL ==> cfg.ttl.Some? && args == [cfg.ttl.value])
    && (b == NETTX ==> cfg.netTxp.Some? && args == [cfg.netTxp.value.cnt, cfg.netTxp.value.intv])
  }

  lemma FeatureArgsAsked(cfg: NodeConfig, b: nat, args: seq<int>)
    requires Settable(b)
    ensures FeatureArgs(cfg, b) == Some(args) <==> Asked(cfg, b, args)
  {
    if |args| == 1 {
      assert args == [args[0]];
    } else if |args| == 3 {
      assert args == [args[0], args[1], args[2]];
    }
  }

  /** The element has the model. */
  predicate Has(el: Element, model: Model) {
    model in el.vendor || (model.vid == SIG_VENDOR_ID && model.mid in el.sig)
  }

  /** Its first model, which is asked for whatever it supports. */
  predicate HasFirst(el: Element, model: Model) {
    if el.sig != [] then model == Model(SIG_VENDOR_ID, el.sig[0]) else el.vendor != [] && model == el.vendor[0]
  }

  /** The command asks a node for a part of this configuration. */
  ghost predicate Meant(cmd: Command, cfg: NodeConfig, keys: seq<AppKey>, comp: seq<Element>) {
    match cmd
    case AddKey(key) => exists refid :: refid in cfg.bindings && FirstKey(keys, refid, key)
    case Bind(e, model, key) =>
      && 0 <= e < |comp| && Has(comp[e], model)
      && exists refid :: refid in cfg.bindings && FirstKey(keys, refid, key)
    case SetPub(e, model, key, _, _, _, _, _) =>
      && 0 <= e < |comp| && Has(comp[e], model) && (HasFirst(comp[e], model) || model.mid !in NOT_PUB)
      && cfg.pub.Some? && FirstKey(keys, cfg.pub.value.aki, key) && Carries(cmd, (e, model), key, cfg.pub.value)
      && cfg.pub.value.aki in cfg.bindings
    case SetSub(e, model, addr) =>
      && 0 <= e < |comp| && Has(comp[e], model) && (HasFirst(comp[e], model) || model.mid !in NOT_SUB)
      && |cfg.sublist| > 0 && addr == cfg.sublist[0]
    case AddSub(e, model, addr) =>
      && 0 <= e < |comp| && Has(comp[e], model) && (HasFirst(comp[e], model) || model.mid !in NOT_SUB)
      && |cfg.sublist| > 0 && addr in cfg.sublist[1..]
    case Feature(b, args) => Settable(b) && Asked(cfg, b, args)
    case GetDcd => cfg.addr != 0
    case Reset => cfg.addr != 0
  }

  /** Every item of an iterating state whose guard holds asks for a part of the configuration. */
  lemma ItemMeant(s: int, p: Pos, n: Node, keys: seq<AppKey>, dcd: seq<Element>)
    requires Iterates(s) && Guard(s, n) && ItemAt(s, p, n, keys, dcd).Cmd?
    ensures Meant(ItemAt(s, p, n, keys, dcd).cmd, n.cfg, keys, dcd)
  {
    var cmd := ItemAt(s, p, n, keys, dcd).cmd;
    hide FirstKey;
    match cmd {
      case AddKey(key) =>
        assert n.cfg.bindings[p.k] in n.cfg.bindings;
      case Bind(e, model, key) =>
        assert n.cfg.bindings[p.k] in n.cfg.bindings;
      case AddSub(e, model, addr) =>
        assert n.cfg.sublist[1..][p.k - 1] == addr;
      case _ =>
    }
  }

  /** The next feature is the lowest in which target and current differ. */
  lemma FeatureMeant(n: Node, keys: seq<AppKey>, comp: seq<Element>)
    requires NextFeature(n).Cmd?
    ensures NextFeature(n).cmd.Feature?
    ensures var b := NextFeature(n).cmd.which;
            && Bit(n.cfg.target, b) != Bit(n.current, b)
            && forall i: nat :: i < b ==> Bit(n.cfg.target, i) == Bit(n.current, i)
    ensures Meant(NextFeature(n).cmd, n.cfg, keys, comp)
  {
    var w := TrailingZeros(Diff(n));
    forall i: nat
      ensures Bit(Diff(n), i) <==> Bit(n.cfg.target, i) != Bit(n.current, i)
    {
      XorBits(n.cfg.target, n.current, i);
    }
    FeatureArgsAsked(n.cfg, w, FeatureArgs(n.cfg, w).value);
  }
}
