/** The configuration of a node or template as the JSON loaders write it in place. */
module FeatureState {
  import opened Bits
  import opened Mesh
  import opened Features

  class MeshConfig {
    var ttl: Option<int>
    var snb: Option<int>
    var netTxp: Option<TxParam>
    var relayTxp: Option<TxParam>
    var target: nat
    var current: nat

    ghost function View(): Config
      reads this
    {
      Config(ttl, snb, netTxp, relayTxp, target, current)
    }

    constructor ()
      ensures View() == BLANK
    {
      ttl, snb, netTxp, relayTxp, target, current := None, None, None, None, 0, 0;
    }

    /** __set_feature_config */
    method SetFeatureConfig(w: nat, on: bool)
      modifies this`target, this`current
      ensures View() == SetFeature(old(View()), w, on)
      ensures Bit(target, w) == on && Bit(current, w) == !on
      ensures forall i: nat :: i != w ==>
                Bit(target, i) == Bit(old(target), i) && Bit(current, i) == Bit(old(current), i)
    {
      forall i: nat
        ensures Bit(SetFeature(View(), w, on).target, i) == (if i == w then on else Bit(target, i))
        ensures Bit(SetFeature(View(), w, on).current, i) == (if i == w then !on else Bit(current, i))
      {
        SetFeatureBits(View(), w, on, i);
      }
      if on {
        target := SetBit(target, w);
        current := ClrBit(current, w);
      } else {
        current := SetBit(current, w);
        target := ClrBit(target, w);
      }
    }

    method LoadTtl(f: Field<int>)
      modifies this`ttl, this`target, this`current
      ensures View() == Features.LoadTtl(old(View()), f)
      ensures TtlLoaded(old(View()), f, View())
    {
      LoadTtlExactly(View(), f);
      if !f.Given? {
        ttl := None;
        return;
      }
      ttl := Some(f.value);
      SetFeatureConfig(TTL, true);
    }

    method LoadSnb(f: Field<int>)
      modifies this`snb, this`target, this`current
      ensures View() == Features.LoadSnb(old(View()), f)
      ensures SnbLoaded(old(View()), f, View())
    {
      LoadSnbExactly(View(), f);
      if !f.Given? {
        snb := None;
        return;
      }
      snb := Some(f.value);
      SetFeatureConfig(SNB, f.value != 0);
    }

    method LoadTxp(o: Option<TxpObj>)
      modifies this`netTxp, this`target, this`current
      ensures View() == Features.LoadTxp(old(View()), o)
      ensures TxpLoaded(old(View()), o, View())
    {
      LoadTxpExactly(View(), o);
      if o.None? || o.value.cnt.Malformed? || o.value.intv.Malformed? {
        netTxp := None;
        return;
      }
      var p := if netTxp.Some? then netTxp.value else TxParam(0, 0);
      if o.value.cnt.Given? {
        p := p.(cnt := o.value.cnt.value);
      }
      if o.value.intv.Given? {
        p := p.(intv := o.value.intv.value);
      }
      netTxp := Some(p);
      SetFeatureConfig(NETTX, true);
    }

    /** The relay of a feature object whose numbers are in order. */
    method LoadRelay(r: RelayObj)
      requires !r.cnt.Malformed? && !r.intv.Malformed?
      modifies this`relayTxp, this`target, this`current
      ensures View() == Features.LoadRelay(old(View()), r)
      ensures relayTxp.Some? && RelayNumbers(r, relayTxp.value)
    {
      hide SetFeature;
      if r.enable.Some? {
        SetFeatureConfig(RELAY, r.enable.value);
      }
      var cnt := if r.cnt.Given? then r.cnt.value else 0;
      var intv := if r.intv.Given? then r.intv.value else 0;
      LimitsExactly(cnt, intv, Limited(cnt, intv));
      if cnt > 7 {
        cnt := 7;
      } else if cnt > 0 {
        if intv < 10 {
          intv := 10;
        } else if intv > 320 {
          intv := 320;
        } else if intv % 10 != 0 {
          intv := (intv + 9) / 10 * 10;
        }
      } else {
        intv := 50;
      }
      relayTxp := Some(TxParam(cnt, intv));
    }

    method LoadFeatures(o: Option<FeatureObj>)
      modifies this`relayTxp, this`target, this`current
      ensures View() == Features.LoadFeatures(old(View()), o)
      ensures FeaturesLoaded(old(View()), o, View())
    {
      LoadFeaturesExactly(View(), o);
      hide SetFeature, And;
      relayTxp := None;
      target := And(target, HIGH);
      current := And(current, HIGH);
      if o.None? {
        return;
      }
      var f := o.value;
      if f.relay.Some? {
        if f.relay.value.cnt.Malformed? || f.relay.value.intv.Malformed? {
          return;
        }
        LoadRelay(f.relay.value);
      }
      hide Features.LoadRelay;
      if f.friend.Some? {
        SetFeatureConfig(FRIEND, f.friend.value);
      }
      if f.proxy.Some? {
        SetFeatureConfig(PROXY, f.proxy.value);
      }
      if f.lpn.Some? {
        if f.lpn.value {
          current := SetBit(current, LPN);
          target := SetBit(target, LPN);
        } else {
          current := ClrBit(current, LPN);
          target := ClrBit(target, LPN);
        }
      }
    }

    /** __copy_tmpl_to_node, on the fields of features. */
    method CopyTemplate(t: MeshConfig) returns (ok: bool)
      requires t != this
      modifies this
      ensures Copied(View(), ok) == Features.CopyTemplate(t.View(), old(View()))
      ensures ok ==> TemplateCopied(t.View(), old(View()), View())
    {
      hide SetFeature, And, Or, TemplateCopied, Touched;
      CopyTemplateExactly(t.View(), View());
      if t.ttl.Some? && ttl.None? {
        SetFeatureConfig(TTL, true);
        ttl := t.ttl;
      }
      if t.snb.Some? && snb.None? {
        SetFeatureConfig(SNB, true);
        snb := t.snb;
      }
      if And(target, LOW) == 0 && And(current, LOW) == 0 {
        if relayTxp.Some? {
          return false;
        }
        target := Or(target, And(t.target, LOW));
        current := Or(current, And(t.current, LOW));
        if t.relayTxp.Some? {
          relayTxp := t.relayTxp;
        }
      }
      if t.netTxp.Some? && netTxp.None? {
        SetFeatureConfig(NETTX, true);
        netTxp := t.netTxp;
      }
      ok := true;
    }

    /** The loaders in their order. */
    method LoadItem(o: Obj)
      modifies this
      ensures View() == Features.LoadItem(old(View()), o)
      ensures old(Ready(View())) ==> (Ready(View()) <==> !old(Loses(View(), o, TTL)) && !old(Loses(View(), o, NETTX)))
    {
      ghost var was := View();
      if Ready(was) {
        LoadReadyExactly(was, o, None);
      }
      hide SetFeature, Ready;
      LoadTtl(o.ttl);
      LoadSnb(o.snb);
      LoadTxp(o.txp);
      LoadFeatures(o.features);
    }
  }
}
