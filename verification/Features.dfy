/** The feature bits of a node as the JSON loaders set them, and the state that brings the
    node's current bits to its target ones. */
module Features {
  import opened Bits
  import opened Odometer
  import opened Mesh
  import opened Slot
  import opened Session

  /** A value of the file: missing, not a number, or given. */
  datatype Field<T> = Absent | Malformed | Given(value: T)

  datatype RelayObj = RelayObj(enable: Option<bool>, cnt: Field<int>, intv: Field<int>)

  datatype TxpObj = TxpObj(cnt: Field<int>, intv: Field<int>)

  /** A feature object: every string but "0x01" switches a feature off. */
  datatype FeatureObj = FeatureObj(relay: Option<RelayObj>, friend: Option<bool>, proxy: Option<bool>,
                                   lpn: Option<bool>)

  /** What an object of the file says of a node or template. */
  datatype Obj = Obj(ttl: Field<int>, snb: Field<int>, txp: Option<TxpObj>, features: Option<FeatureObj>)

  /** The part of a node's or a template's configuration the loaders of features write. */
  datatype Config = Config(ttl: Option<int>, snb: Option<int>, netTxp: Option<TxParam>,
                           relayTxp: Option<TxParam>, target: nat, current: nat)

  /** A node or template just allocated. */
  const BLANK := Config(None, None, None, None, 0, 0)

  const LOW := 0xF
  const HIGH := 0xFFF0

  /** __set_feature_config */
  function SetFeature(c: Config, w: nat, on: bool): Config {
    if on then c.(target := SetBit(c.target, w), current := ClrBit(c.current, w))
    else c.(current := SetBit(c.current, w), target := ClrBit(c.target, w))
  }

  function LoadTtl(c: Config, f: Field<int>): Config {
    if f.Given? then SetFeature(c.(ttl := Some(f.value)), TTL, true) else c.(ttl := None)
  }

  function LoadSnb(c: Config, f: Field<int>): Config {
    if f.Given? then SetFeature(c.(snb := Some(f.value)), SNB, f.value != 0) else c.(snb := None)
  }

  function Or0<T>(f: Field<T>, otherwise: T): T {
    if f.Given? then f.value else otherwise
  }

  function LoadTxp(c: Config, o: Option<TxpObj>): Config {
    if o.None? || o.value.cnt.Malformed? || o.value.intv.Malformed? then c.(netTxp := None)
    else
      var was := if c.netTxp.Some? then c.netTxp.value else TxParam(0, 0);
      SetFeature(c.(netTxp := Some(TxParam(Or0(o.value.cnt, was.cnt), Or0(o.value.intv, was.intv)))), NETTX, true)
  }

  /** The limits of the relay retransmission parameters. */
  function Limited(cnt: int, intv: int): TxParam {
    if cnt > 7 then TxParam(7, intv)
    else if cnt > 0 then TxParam(cnt, if intv < 10 then 10 else if intv > 320 then 320 else (intv + 9) / 10 * 10)
    else TxParam(cnt, 50)
  }

  function WithoutLow(c: Config): Config {
    c.(relayTxp := None, target := And(c.target, HIGH), current := And(c.current, HIGH))
  }

  function SetIfGiven(c: Config, w: nat, on: Option<bool>): Config {
    if on.Some? then SetFeature(c, w, on.value) else c
  }

  /** The low power bit is informative: it is the same in both bitmaps. */
  function SetLpn(c: Config, on: Option<bool>): Config {
    if on.None? then c
    else if on.value then c.(current := SetBit(c.current, LPN), target := SetBit(c.target, LPN))
    else c.(current := ClrBit(c.current, LPN), target := ClrBit(c.target, LPN))
  }

  predicate RelayMalformed(r: Option<RelayObj>) {
    r.Some? && (r.value.cnt.Malformed? || r.value.intv.Malformed?)
  }

  function LoadRelay(c: Config, r: RelayObj): Config {
    SetIfGiven(c, RELAY, r.enable).(relayTxp := Some(Limited(Or0(r.cnt, 0), Or0(r.intv, 0))))
  }

  function LoadFeatures(c: Config, o: Option<FeatureObj>): Config {
    var c0 := WithoutLow(c);
    if o.None? || RelayMalformed(o.value.relay) then c0
    else
      var c1 := if o.value.relay.Some? then LoadRelay(c0, o.value.relay.value) else c0;
      SetLpn(SetIfGiven(SetIfGiven(c1, FRIEND, o.value.friend), PROXY, o.value.proxy), o.value.lpn)
  }

  /** The loaders in their order; those of other fields do not touch the feature bits. */
  function LoadItem(c: Config, o: Obj): Config {
    LoadFeatures(LoadTxp(LoadSnb(LoadTtl(c, o.ttl), o.snb), o.txp), o.features)
  }

  /** A configuration, or a failed ASSERT. */
  datatype Copied = Copied(c: Config, ok: bool)

  function CopyTtl(t: Config, n: Config): Config {
    if t.ttl.Some? && n.ttl.None? then SetFeature(n, TTL, true).(ttl := t.ttl) else n
  }

  function CopySnb(t: Config, n: Config): Config {
    if t.snb.Some? && n.snb.None? then SetFeature(n, SNB, true).(snb := t.snb) else n
  }

  predicate LowClear(n: Config) {
    And(n.target, LOW) == 0 && And(n.current, LOW) == 0
  }

  function CopyLow(t: Config, n: Config): Config {
    n.(target := Or(n.target, And(t.target, LOW)), current := Or(n.current, And(t.current, LOW)),
       relayTxp := if t.relayTxp.Some? then t.relayTxp else n.relayTxp)
  }

  function CopyTxp(t: Config, n: Config): Config {
    if t.netTxp.Some? && n.netTxp.None? then SetFeature(n, NETTX, true).(netTxp := t.netTxp) else n
  }

  /** __copy_tmpl_to_node, on the fields of features. */
  function CopyTemplate(t: Config, n: Config): Copied {
    var n1 := CopySnb(t, CopyTtl(t, n));
    if LowClear(n1) && n1.relayTxp.Some? then Copied(n1, false)
    else Copied(CopyTxp(t, if LowClear(n1) then CopyLow(t, n1) else n1), true)
  }

  function LoadNode(c: Config, o: Obj, tmpl: Option<Config>): Copied {
    var c' := LoadItem(c, o);
    if tmpl.Some? then CopyTemplate(tmpl.value, c') else Copied(c', true)
  }

  /* What the loaders guarantee */

  predicate HasParam(c: Config, w: nat) {
    (w == RELAY ==> c.relayTxp.Some?) && (w == TTL ==> c.ttl.Some?) && (w == NETTX ==> c.netTxp.Some?)
  }

  predicate Differs(c: Config, w: nat) {
    Bit(c.target, w) != Bit(c.current, w)
  }

  /** The low power bit is equal in target and current, a command exists for every bit that
      differs, and its parameter is present. */
  ghost predicate Ready(c: Config) {
    forall w: nat :: Differs(c, w) ==> Settable(w) && HasParam(c, w)
  }

  lemma SetFeatureBits(c: Config, w: nat, on: bool, i: nat)
    ensures var c' := SetFeature(c, w, on);
            && Bit(c'.target, i) == (if i == w then on else Bit(c.target, i))
            && Bit(c'.current, i) == (if i == w then !on else Bit(c.current, i))
  {
    SetBitBits(c.target, w, i);
    ClrBitBits(c.target, w, i);
    SetBitBits(c.current, w, i);
    ClrBitBits(c.current, w, i);
  }

  lemma SetFeatureDiffers(c: Config, w: nat, on: bool)
    ensures forall i: nat :: Differs(SetFeature(c, w, on), i) == (i == w || Differs(c, i))
  {
    forall i: nat
      ensures Differs(SetFeature(c, w, on), i) == (i == w || Differs(c, i))
    {
      SetFeatureBits(c, w, on, i);
    }
  }

  lemma MaskBits(i: nat)
    ensures Bit(LOW, i) == (i < 4) && Bit(HIGH, i) == (4 <= i < 16)
  {
    assert Pow2(4) == 16 && Pow2(8) == 256 && Pow2(12) == 4096 by {
      assert Pow2(2) == 2 * Pow2(1);
      assert Pow2(3) == 2 * Pow2(2);
      assert Pow2(5) == 2 * Pow2(4);
      assert Pow2(6) == 2 * Pow2(5);
      assert Pow2(7) == 2 * Pow2(6);
      assert Pow2(9) == 2 * Pow2(8);
      assert Pow2(10) == 2 * Pow2(9);
      assert Pow2(11) == 2 * Pow2(10);
    }
    OnesBits(4, i);
    if i >= 4 {
      OnesBits(12, i - 4);
      assert Bit(0xFFF0, i) == Bit(0x7FF8, i - 1);
      assert Bit(0x7FF8, i - 1) == Bit(0x3FFC, i - 2);
      assert Bit(0x3FFC, i - 2) == Bit(0x1FFE, i - 3);
      assert Bit(0x1FFE, i - 3) == Bit(0xFFF, i - 4);
    } else {
      assert i == 0 || i == 1 || i == 2 || i == 3;
    }
  }

  lemma WithoutLowDiffers(c: Config)
    ensures forall i: nat :: Differs(WithoutLow(c), i) == (4 <= i < 16 && Differs(c, i))
    ensures forall i: nat :: i < 4 ==> !Bit(WithoutLow(c).target, i) && !Bit(WithoutLow(c).current, i)
  {
    forall i: nat
      ensures Differs(WithoutLow(c), i) == (4 <= i < 16 && Differs(c, i))
      ensures i < 4 ==> !Bit(WithoutLow(c).target, i) && !Bit(WithoutLow(c).current, i)
    {
      MaskBits(i);
      AndBits(c.target, HIGH, i);
      AndBits(c.current, HIGH, i);
    }
  }

  /** What the object and the template give. */
  predicate GivesTxp(o: Option<TxpObj>) {
    o.Some? && !o.value.cnt.Malformed? && !o.value.intv.Malformed?
  }

  lemma TtlDiffers(c: Config, f: Field<int>)
    ensures forall i: nat :: Differs(LoadTtl(c, f), i) == ((f.Given? && i == TTL) || Differs(c, i))
  {
    SetFeatureDiffers(c.(ttl := Some(Or0(f, 0))), TTL, true);
  }

  lemma SnbDiffers(c: Config, f: Field<int>)
    ensures forall i: nat :: Differs(LoadSnb(c, f), i) == ((f.Given? && i == SNB) || Differs(c, i))
  {
    SetFeatureDiffers(c.(snb := Some(Or0(f, 0))), SNB, Or0(f, 0) != 0);
  }

  lemma TxpDiffers(c: Config, o: Option<TxpObj>)
    ensures forall i: nat :: Differs(LoadTxp(c, o), i) == ((GivesTxp(o) && i == NETTX) || Differs(c, i))
    ensures LoadTxp(c, o).netTxp.Some? <==> GivesTxp(o)
  {
    if GivesTxp(o) {
      var was := if c.netTxp.Some? then c.netTxp.value else TxParam(0, 0);
      var p := TxParam(Or0(o.value.cnt, was.cnt), Or0(o.value.intv, was.intv));
      SetFeatureDiffers(c.(netTxp := Some(p)), NETTX, true);
    }
  }

  predicate SameParams(c: Config, c': Config) {
    c'.ttl == c.ttl && c'.netTxp == c.netTxp && c'.relayTxp == c.relayTxp
  }

  lemma SetIfGivenDiffers(c: Config, w: nat, on: Option<bool>)
    ensures forall i: nat :: Differs(SetIfGiven(c, w, on), i) == ((on.Some? && i == w) || Differs(c, i))
    ensures SameParams(c, SetIfGiven(c, w, on))
  {
    if on.Some? {
      SetFeatureDiffers(c, w, on.value);
    }
  }

  lemma SetLpnDiffers(c: Config, on: Option<bool>)
    ensures forall i: nat :: Differs(SetLpn(c, on), i) == (Differs(c, i) && (on.Some? ==> i != LPN))
    ensures SameParams(c, SetLpn(c, on))
  {
    forall i: nat
      ensures Differs(SetLpn(c, on), i) == (Differs(c, i) && (on.Some? ==> i != LPN))
    {
      SetBitBits(c.target, LPN, i);
      SetBitBits(c.current, LPN, i);
      ClrBitBits(c.target, LPN, i);
      ClrBitBits(c.current, LPN, i);
    }
  }

  /** Loading the feature object leaves relay, proxy, friend and low power as it says, with
      parameters for the relay when it differs, and the other bits as they were. */
  lemma FeaturesDiffers(c: Config, o: Option<FeatureObj>)
    ensures var c' := LoadFeatures(c, o);
            && (forall i: nat :: i >= 4 && Differs(c', i) ==> Differs(c, i))
            && (forall i: nat :: 4 <= i < 16 && Differs(c, i) ==> Differs(c', i))
            && !Differs(c', LPN) && (Differs(c', RELAY) ==> c'.relayTxp.Some?)
            && c'.ttl == c.ttl && c'.netTxp == c.netTxp
  {
    WithoutLowDiffers(c);
    if o.Some? && !RelayMalformed(o.value.relay) {
      var f, c0 := o.value, WithoutLow(c);
      var c1 := if f.relay.Some? then LoadRelay(c0, f.relay.value) else c0;
      if f.relay.Some? {
        RelayDiffers(c0, f.relay.value);
      }
      var c2 := SetIfGiven(c1, FRIEND, f.friend);
      var c3 := SetIfGiven(c2, PROXY, f.proxy);
      SetIfGivenDiffers(c1, FRIEND, f.friend);
      SetIfGivenDiffers(c2, PROXY, f.proxy);
      SetLpnDiffers(c3, f.lpn);
      assert c0.relayTxp == None && c0.ttl == c.ttl && c0.netTxp == c.netTxp;
      hide Differs, SetIfGiven, SetLpn, LoadRelay, WithoutLow;
    }
  }

  lemma RelayDiffers(c: Config, r: RelayObj)
    ensures forall i: nat :: Differs(LoadRelay(c, r), i) == ((r.enable.Some? && i == RELAY) || Differs(c, i))
    ensures LoadRelay(c, r).ttl == c.ttl && LoadRelay(c, r).netTxp == c.netTxp && LoadRelay(c, r).relayTxp.Some?
  {
  }

  /** The parameter of a bit that differed is taken away by the object. */
  predicate Loses(c: Config, o: Obj, w: nat) {
    Differs(c, w) && ((w == TTL && !o.ttl.Given?) || (w == NETTX && !GivesTxp(o.txp)))
  }

  /** Loading an object into a ready node leaves it ready, but for parameters it lost. */
  lemma ItemReady(c: Config, o: Obj)
    requires Ready(c) && forall i: nat :: Differs(c, i) ==> i < 16
    ensures var c' := LoadItem(c, o);
            && (forall w: nat :: Differs(c', w) ==> Settable(w) && (HasParam(c', w) || Loses(c, o, w)))
            && (forall w: nat :: Loses(c, o, w) ==> Differs(c', w) && !HasParam(c', w))
            && (c'.ttl.Some? <==> o.ttl.Given?) && (c'.netTxp.Some? <==> GivesTxp(o.txp))
  {
    var c1 := LoadTtl(c, o.ttl);
    var c2 := LoadSnb(c1, o.snb);
    var c3 := LoadTxp(c2, o.txp);
    TtlDiffers(c, o.ttl);
    SnbDiffers(c1, o.snb);
    TxpDiffers(c2, o.txp);
    FeaturesDiffers(c3, o.features);
    assert c3.ttl.Some? <==> o.ttl.Given?;
    hide Differs, LoadTtl, LoadSnb, LoadTxp, LoadFeatures, GivesTxp;
  }

  /* The template */

  predicate Touched(c: Config, i: nat) {
    Bit(c.target, i) || Bit(c.current, i)
  }

  lemma LowClearBits(n: Config)
    ensures LowClear(n) <==> forall i: nat :: i < 4 ==> !Touched(n, i)
  {
    MaskZero(n.target);
    MaskZero(n.current);
    if LowClear(n) {
      forall i: nat | i < 4
        ensures !Touched(n, i)
      {
        assert !Bit(n.target, i) && !Bit(n.current, i);
      }
    } else {
      assert exists i: nat :: i < 4 && (Bit(n.target, i) || Bit(n.current, i));
      var i: nat :| i < 4 && (Bit(n.target, i) || Bit(n.current, i));
      assert Touched(n, i);
    }
  }

  lemma MaskZero(u: nat)
    ensures And(u, LOW) == 0 <==> forall i: nat :: i < 4 ==> !Bit(u, i)
  {
    forall i: nat
      ensures Bit(And(u, LOW), i) == (Bit(u, i) && i < 4)
    {
      AndBits(u, LOW, i);
      MaskBits(i);
    }
    if And(u, LOW) == 0 {
      forall i: nat | i < 4
        ensures !Bit(u, i)
      {
        ZeroHasNoBits(i);
        assert !Bit(And(u, LOW), i);
      }
    } else {
      var i := SomeBit(And(u, LOW));
      AndBits(u, LOW, i);
      MaskBits(i);
    }
  }

  lemma CopyLowDiffers(t: Config, n: Config)
    requires LowClear(n)
    ensures forall i: nat :: Differs(CopyLow(t, n), i) == (if i < 4 then Differs(t, i) else Differs(n, i))
  {
    LowClearBits(n);
    forall i: nat
      ensures Differs(CopyLow(t, n), i) == (if i < 4 then Differs(t, i) else Differs(n, i))
    {
      assert i < 4 ==> !Touched(n, i);
      MaskBits(i);
      AndBits(t.target, LOW, i);
      AndBits(t.current, LOW, i);
      OrBits(n.target, And(t.target, LOW), i);
      OrBits(n.current, And(t.current, LOW), i);
    }
  }

  /** Every bit that differs has a command, and its parameter unless the node lost it. */
  ghost predicate NearlyReady(n: Config, lostTtl: bool, lostTxp: bool) {
    && (forall w: nat :: Differs(n, w) ==>
          Settable(w) && (HasParam(n, w) || (w == TTL && lostTtl) || (w == NETTX && lostTxp)))
    && (lostTtl ==> Differs(n, TTL) && n.ttl.None?) && (lostTxp ==> Differs(n, NETTX) && n.netTxp.None?)
  }

  /** Copying a parameter the node lacks makes its bit differ and no other. */
  lemma CopyTtlDiffers(t: Config, n: Config)
    ensures forall i: nat :: Differs(CopyTtl(t, n), i) == ((t.ttl.Some? && n.ttl.None? && i == TTL) || Differs(n, i))
  {
    SetFeatureDiffers(n, TTL, true);
  }

  lemma CopySnbDiffers(t: Config, n: Config)
    ensures forall i: nat :: Differs(CopySnb(t, n), i) == ((t.snb.Some? && n.snb.None? && i == SNB) || Differs(n, i))
  {
    SetFeatureDiffers(n, SNB, true);
  }

  lemma CopyTxpDiffers(t: Config, n: Config)
    ensures forall i: nat ::
              Differs(CopyTxp(t, n), i) == ((t.netTxp.Some? && n.netTxp.None? && i == NETTX) || Differs(n, i))
  {
    SetFeatureDiffers(n, NETTX, true);
  }

  lemma CopyTtlReady(t: Config, n: Config, lostTtl: bool, lostTxp: bool)
    requires NearlyReady(n, lostTtl, lostTxp)
    ensures NearlyReady(CopyTtl(t, n), lostTtl && t.ttl.None?, lostTxp)
  {
    CopyTtlDiffers(t, n);
    hide Differs;
  }

  lemma CopySnbReady(t: Config, n: Config, lostTtl: bool, lostTxp: bool)
    requires NearlyReady(n, lostTtl, lostTxp)
    ensures NearlyReady(CopySnb(t, n), lostTtl, lostTxp)
  {
    CopySnbDiffers(t, n);
    hide Differs;
  }

  lemma CopyLowReady(t: Config, n: Config, lostTtl: bool, lostTxp: bool)
    requires NearlyReady(n, lostTtl, lostTxp) && Ready(t) && LowClear(n)
    ensures NearlyReady(CopyLow(t, n), lostTtl, lostTxp)
  {
    CopyLowDiffers(t, n);
    hide Differs, LowClear;
  }

  lemma CopyTxpReady(t: Config, n: Config, lostTtl: bool, lostTxp: bool)
    requires NearlyReady(n, lostTtl, lostTxp)
    ensures NearlyReady(CopyTxp(t, n), lostTtl, lostTxp && t.netTxp.None?)
  {
    CopyTxpDiffers(t, n);
    hide Differs;
  }

  /** The parameter of a bit that differed is given neither by the object nor by the template. */
  predicate StaysLost(c: Config, o: Obj, tmpl: Option<Config>, w: nat) {
    Loses(c, o, w) && (tmpl.Some? ==> if w == TTL then tmpl.value.ttl.None? else tmpl.value.netTxp.None?)
  }

  /** After loading, on top of whatever a ready node held before, every differing bit has a
      command and its parameter exactly when no bit that differed before lost its parameter. */
  lemma LoadReadyExactly(c: Config, o: Obj, tmpl: Option<Config>)
    requires Ready(c) && (tmpl.Some? ==> Ready(tmpl.value)) && LoadNode(c, o, tmpl).ok
    ensures Ready(LoadNode(c, o, tmpl).c) <==> !StaysLost(c, o, tmpl, TTL) && !StaysLost(c, o, tmpl, NETTX)
  {
    forall i: nat | Differs(c, i)
      ensures i < 16
    {
      assert Settable(i);
    }
    ItemReady(c, o);
    var n := LoadItem(c, o);
    assert NearlyReady(n, Loses(c, o, TTL), Loses(c, o, NETTX));
    hide Differs, LoadItem;
    if tmpl.Some? {
      var t := tmpl.value;
      var lostTtl := Loses(c, o, TTL) && t.ttl.None?;
      CopyTtlReady(t, n, Loses(c, o, TTL), Loses(c, o, NETTX));
      CopySnbReady(t, CopyTtl(t, n), lostTtl, Loses(c, o, NETTX));
      var n1 := CopySnb(t, CopyTtl(t, n));
      if LowClear(n1) {
        CopyLowReady(t, n1, lostTtl, Loses(c, o, NETTX));
      }
      var n2 := if LowClear(n1) then CopyLow(t, n1) else n1;
      CopyTxpReady(t, n2, lostTtl, Loses(c, o, NETTX));
      assert LoadNode(c, o, tmpl).c == CopyTxp(t, n2);
      NearlyIsReady(CopyTxp(t, n2), StaysLost(c, o, tmpl, TTL), StaysLost(c, o, tmpl, NETTX));
    } else {
      NearlyIsReady(n, Loses(c, o, TTL), Loses(c, o, NETTX));
    }
  }

  lemma NearlyIsReady(n: Config, lostTtl: bool, lostTxp: bool)
    requires NearlyReady(n, lostTtl, lostTxp)
    ensures Ready(n) <==> !lostTtl && !lostTxp
  {
  }

  lemma BlankIsReady()
    ensures Ready(BLANK)
  {
  }

  /** A freshly loaded node, with or without a template itself freshly loaded, is ready. */
  lemma FreshNodeIsReady(o: Obj, tmpl: Option<Obj>)
    ensures var t := if tmpl.Some? then Some(LoadItem(BLANK, tmpl.value)) else None;
            LoadNode(BLANK, o, t).ok ==> Ready(LoadNode(BLANK, o, t).c)
  {
    BlankIsReady();
    ZeroHasNoBits(TTL);
    ZeroHasNoBits(NETTX);
    if tmpl.Some? {
      LoadReadyExactly(BLANK, tmpl.value, None);
    }
    var t := if tmpl.Some? then Some(LoadItem(BLANK, tmpl.value)) else None;
    if LoadNode(BLANK, o, t).ok {
      LoadReadyExactly(BLANK, o, t);
    }
  }

  /* The ASSERT in copying a template */

  lemma SetIfGivenTouched(c: Config, w: nat, on: Option<bool>, i: nat)
    ensures Touched(SetIfGiven(c, w, on), i) == ((on.Some? && i == w) || Touched(c, i))
  {
    if on.Some? {
      SetFeatureBits(c, w, on.value, i);
    }
  }

  lemma SetLpnTouched(c: Config, on: Option<bool>, i: nat)
    ensures Touched(SetLpn(c, on), i) == (if on.Some? && i == LPN then on.value else Touched(c, i))
  {
    SetBitBits(c.target, LPN, i);
    SetBitBits(c.current, LPN, i);
    ClrBitBits(c.target, LPN, i);
    ClrBitBits(c.current, LPN, i);
  }

  /** The low bit a feature object sets in one of the bitmaps. */
  predicate Mentions(f: FeatureObj, i: nat) {
    || (i == RELAY && f.relay.Some? && f.relay.value.enable.Some?)
    || (i == FRIEND && f.friend.Some?) || (i == PROXY && f.proxy.Some?)
    || (i == LPN && f.lpn == Some(true))
  }

  lemma FeaturesTouched(c: Config, f: FeatureObj, i: nat)
    requires !RelayMalformed(f.relay) && i < 4
    ensures Touched(LoadFeatures(c, Some(f)), i) == Mentions(f, i)
  {
    WithoutLowDiffers(c);
    var c0 := WithoutLow(c);
    var c1 := if f.relay.Some? then LoadRelay(c0, f.relay.value) else c0;
    var c2 := SetIfGiven(c1, FRIEND, f.friend);
    if f.relay.Some? {
      SetIfGivenTouched(c0, RELAY, f.relay.value.enable, i);
    }
    SetIfGivenTouched(c1, FRIEND, f.friend, i);
    SetIfGivenTouched(c2, PROXY, f.proxy, i);
    SetLpnTouched(SetIfGiven(c2, PROXY, f.proxy), f.lpn, i);
  }

  /** The feature object of a node without a template's features has a relay to be switched. */
  ghost predicate OnlyRelayParams(o: Option<FeatureObj>) {
    o.Some? && o.value.relay.Some? && !RelayMalformed(o.value.relay) && forall i: nat :: i < 4 ==> !Mentions(o.value, i)
  }

  lemma LoadedLow(c: Config, o: Option<FeatureObj>)
    ensures var n := LoadFeatures(c, o);
            LowClear(n) && n.relayTxp.Some? <==> OnlyRelayParams(o)
  {
    var n := LoadFeatures(c, o);
    LowClearBits(n);
    if o.Some? && !RelayMalformed(o.value.relay) {
      forall i: nat | i < 4
        ensures Touched(n, i) == Mentions(o.value, i)
      {
        FeaturesTouched(c, o.value, i);
      }
      FeaturesRelay(c, o.value);
      hide LoadFeatures, LowClear, Mentions, Touched;
    }
  }

  /** The ASSERT in copying a template fires exactly for a node whose feature object has a
      relay without the field to enable it, and no other feature but low power switched off. */
  lemma CopyAbortsExactly(c: Config, o: Obj, t: Config)
    ensures LoadNode(c, o, Some(t)).ok <==> !OnlyRelayParams(o.features)
  {
    LoadedLow(LoadTxp(LoadSnb(LoadTtl(c, o.ttl), o.snb), o.txp), o.features);
    CopyKeepsLow(t, LoadItem(c, o));
    hide LowClear, SetFeature, LoadTtl, LoadSnb, LoadTxp, LoadFeatures, CopySnb, CopyTtl, OnlyRelayParams;
  }

  lemma FeaturesRelay(c: Config, f: FeatureObj)
    requires !RelayMalformed(f.relay)
    ensures LoadFeatures(c, Some(f)).relayTxp.Some? <==> f.relay.Some?
  {
  }

  lemma CopyKeepsLow(t: Config, n: Config)
    ensures var n1 := CopySnb(t, CopyTtl(t, n));
            (LowClear(n1) <==> LowClear(n)) && n1.relayTxp == n.relayTxp
  {
    var n0 := CopyTtl(t, n);
    var n1 := CopySnb(t, n0);
    LowClearBits(n);
    LowClearBits(n1);
    forall i: nat | i < 4
      ensures Touched(n1, i) == Touched(n, i)
    {
      SetFeatureBits(n, TTL, true, i);
      SetFeatureBits(n0, SNB, true, i);
    }
    hide LowClear, Touched;
  }

  /** The value of a template's secure network beacon is not looked at: copied to a node that
      has none of its own it switches the beacon on, even a value of zero.  So the target says
      whether the value is non-zero, as it does after the node's own loader, exactly when it is. */
  lemma TemplateTurnsBeaconOn(t: Config, n: Config)
    requires t.snb.Some? && n.snb.None? && CopyTemplate(t, n).ok
    ensures Bit(CopyTemplate(t, n).c.target, SNB) && !Bit(CopyTemplate(t, n).c.current, SNB)
    ensures Bit(CopyTemplate(t, n).c.target, SNB) == (t.snb.value != 0) <==> t.snb.value != 0
  {
    var n0 := CopyTtl(t, n);
    var n1 := CopySnb(t, n0);
    SetFeatureBits(n0, SNB, true, SNB);
    var n2 := if LowClear(n1) then CopyLow(t, n1) else n1;
    if LowClear(n1) {
      MaskBits(SNB);
      AndBits(t.target, LOW, SNB);
      AndBits(t.current, LOW, SNB);
      OrBits(n1.target, And(t.target, LOW), SNB);
      OrBits(n1.current, And(t.current, LOW), SNB);
    }
    SetFeatureBits(n2, NETTX, true, SNB);
    hide LowClear, SetFeature;
  }

  /* What the loaders leave, value by value and bit by bit */

  /** Bit w of both bitmaps is as said and every other bit as before. */
  ghost predicate Switched(was: Config, now: Config, w: nat, target: bool, current: bool) {
    && Bit(now.target, w) == target && Bit(now.current, w) == current
    && forall i: nat :: i != w ==>
         Bit(now.target, i) == Bit(was.target, i) && Bit(now.current, i) == Bit(was.current, i)
  }

  /** The value given is held and its bit made to differ; without one none is held. */
  ghost predicate TtlLoaded(was: Config, f: Field<int>, now: Config) {
    && now.ttl == (if f.Given? then Some(f.value) else None)
    && (if f.Given? then Switched(was, now, TTL, true, false)
        else now.target == was.target && now.current == was.current)
    && now.snb == was.snb && now.netTxp == was.netTxp && now.relayTxp == was.relayTxp
  }

  lemma LoadTtlExactly(c: Config, f: Field<int>)
    ensures TtlLoaded(c, f, LoadTtl(c, f))
  {
    SwitchedBy(c.(ttl := Some(Or0(f, 0))), TTL, true);
  }

  lemma SwitchedBy(c: Config, w: nat, on: bool)
    ensures Switched(c, SetFeature(c, w, on), w, on, !on)
  {
    forall i: nat
      ensures Bit(SetFeature(c, w, on).target, i) == (if i == w then on else Bit(c.target, i))
      ensures Bit(SetFeature(c, w, on).current, i) == (if i == w then !on else Bit(c.current, i))
    {
      SetFeatureBits(c, w, on, i);
    }
  }

  /** The value given is held and the beacon to be switched by whether it is zero. */
  ghost predicate SnbLoaded(was: Config, f: Field<int>, now: Config) {
    && now.snb == (if f.Given? then Some(f.value) else None)
    && (if f.Given? then Switched(was, now, SNB, f.value != 0, f.value == 0)
        else now.target == was.target && now.current == was.current)
    && now.ttl == was.ttl && now.netTxp == was.netTxp && now.relayTxp == was.relayTxp
  }

  lemma LoadSnbExactly(c: Config, f: Field<int>)
    ensures SnbLoaded(c, f, LoadSnb(c, f))
  {
    SwitchedBy(c.(snb := Some(Or0(f, 0))), SNB, Or0(f, 0) != 0);
  }

  /** A number given is held; one not given stays as it was, or is zero when there was none. */
  predicate Held(f: Field<int>, was: int, now: int) {
    (f.Given? ==> now == f.value) && (!f.Given? ==> now == was)
  }

  /** Count and interval, unless there is no object or one of the two is malformed. */
  ghost predicate TxpLoaded(was: Config, o: Option<TxpObj>, now: Config) {
    && now.ttl == was.ttl && now.snb == was.snb && now.relayTxp == was.relayTxp
    && if o.None? || o.value.cnt.Malformed? || o.value.intv.Malformed? then
         now.netTxp.None? && now.target == was.target && now.current == was.current
       else
         && now.netTxp.Some? && Switched(was, now, NETTX, true, false)
         && Held(o.value.cnt, if was.netTxp.Some? then was.netTxp.value.cnt else 0, now.netTxp.value.cnt)
         && Held(o.value.intv, if was.netTxp.Some? then was.netTxp.value.intv else 0, now.netTxp.value.intv)
  }

  lemma LoadTxpExactly(c: Config, o: Option<TxpObj>)
    ensures TxpLoaded(c, o, LoadTxp(c, o))
  {
    SwitchedBy(c.(netTxp := LoadTxp(c, o).netTxp), NETTX, true);
    hide SetFeature, Switched;
  }

  /** The relay's count is at most 7.  For counts from 1 to 7 the interval is rounded up to tens
      between 10 and 320; for zero it is 50; for more than 7 it stays. */
  predicate WithinLimits(cnt: int, intv: int, p: TxParam) {
    && p.cnt == (if cnt > 7 then 7 else cnt)
    && (cnt <= 0 ==> p.intv == 50) && (cnt > 7 ==> p.intv == intv)
    && (1 <= cnt <= 7 ==>
          && 10 <= p.intv <= 320 && p.intv % 10 == 0
          && (intv <= 10 ==> p.intv == 10) && (intv >= 320 ==> p.intv == 320)
          && (10 <= intv <= 320 ==> intv <= p.intv < intv + 10))
  }

  lemma LimitsExactly(cnt: int, intv: int, p: TxParam)
    ensures p == Limited(cnt, intv) <==> WithinLimits(cnt, intv, p)
  {
  }

  /** The four low bits as the object names them, the others untouched, and the relay's numbers. */
  ghost predicate FeaturesLoaded(was: Config, o: Option<FeatureObj>, now: Config) {
    && now.ttl == was.ttl && now.snb == was.snb && now.netTxp == was.netTxp
    && (forall i: nat :: 4 <= i < 16 ==>
          Bit(now.target, i) == Bit(was.target, i) && Bit(now.current, i) == Bit(was.current, i))
    && if o.None? || (o.value.relay.Some? &&
                      (o.value.relay.value.cnt.Malformed? || o.value.relay.value.intv.Malformed?)) then
         now.relayTxp.None? && forall i: nat :: i < 4 ==> !Bit(now.target, i) && !Bit(now.current, i)
       else
         && LowBit(now, RELAY, if o.value.relay.Some? then o.value.relay.value.enable else None)
         && LowBit(now, FRIEND, o.value.friend) && LowBit(now, PROXY, o.value.proxy)
         && Bit(now.target, LPN) == Bit(now.current, LPN) == (o.value.lpn == Some(true))
         && (o.value.relay.None? ==> now.relayTxp.None?)
         && (o.value.relay.Some? ==> now.relayTxp.Some? && RelayNumbers(o.value.relay.value, now.relayTxp.value))
  }

  /** A feature named is to be switched as said; one not named is clear in both bitmaps. */
  predicate LowBit(now: Config, w: nat, on: Option<bool>) {
    Bit(now.target, w) == (on == Some(true)) && Bit(now.current, w) == (on == Some(false))
  }

  /** Numbers not given count as zero. */
  predicate RelayNumbers(r: RelayObj, p: TxParam) {
    WithinLimits(if r.cnt.Given? then r.cnt.value else 0, if r.intv.Given? then r.intv.value else 0, p)
  }

  lemma LoadFeaturesExactly(c: Config, o: Option<FeatureObj>)
    ensures FeaturesLoaded(c, o, LoadFeatures(c, o))
  {
    var n := LoadFeatures(c, o);
    forall i: nat
      ensures 4 <= i < 16 ==> Bit(n.target, i) == Bit(c.target, i) && Bit(n.current, i) == Bit(c.current, i)
      ensures i < 4 && (o.None? || RelayMalformed(o.value.relay)) ==> !Bit(n.target, i) && !Bit(n.current, i)
      ensures i < 4 && o.Some? && !RelayMalformed(o.value.relay) ==> LowLoaded(n, o.value, i)
    {
      LoadFeaturesBits(c, o, i);
    }
    assert o.Some? && !RelayMalformed(o.value.relay) ==>
             LowLoaded(n, o.value, RELAY) && LowLoaded(n, o.value, FRIEND)
               && LowLoaded(n, o.value, PROXY) && LowLoaded(n, o.value, LPN);
    LoadFeaturesNumbers(c, o);
    hide LoadFeatures, RelayNumbers, LowBit;
    hide Bit;
  }

  /** What the object says of a low bit. */
  predicate LowLoaded(n: Config, f: FeatureObj, i: nat) {
    && (i == RELAY ==> LowBit(n, RELAY, if f.relay.Some? then f.relay.value.enable else None))
    && (i == FRIEND ==> LowBit(n, FRIEND, f.friend)) && (i == PROXY ==> LowBit(n, PROXY, f.proxy))
    && (i == LPN ==> Bit(n.target, LPN) == Bit(n.current, LPN) == (f.lpn == Some(true)))
  }

  lemma LoadFeaturesBits(c: Config, o: Option<FeatureObj>, i: nat)
    ensures var n := LoadFeatures(c, o);
            && (4 <= i < 16 ==> Bit(n.target, i) == Bit(c.target, i) && Bit(n.current, i) == Bit(c.current, i))
            && (if o.None? || RelayMalformed(o.value.relay) then i < 4 ==> !Bit(n.target, i) && !Bit(n.current, i)
                else i < 4 ==> LowLoaded(n, o.value, i))
  {
    var c0 := WithoutLow(c);
    MaskBits(i);
    AndBits(c.target, HIGH, i);
    AndBits(c.current, HIGH, i);
    if o.Some? && !RelayMalformed(o.value.relay) {
      var f := o.value;
      var enable := if f.relay.Some? then f.relay.value.enable else None;
      var c1 := if f.relay.Some? then LoadRelay(c0, f.relay.value) else c0;
      var c2 := SetIfGiven(c1, FRIEND, f.friend);
      var c3 := SetIfGiven(c2, PROXY, f.proxy);
      SetIfGivenBits(c0, RELAY, enable, i);
      SetIfGivenBits(c1, FRIEND, f.friend, i);
      SetIfGivenBits(c2, PROXY, f.proxy, i);
      SetLpnBits(c3, f.lpn, i);
      assert c1.target == SetIfGiven(c0, RELAY, enable).target && c1.current == SetIfGiven(c0, RELAY, enable).current;
      assert LoadFeatures(c, o) == SetLpn(c3, f.lpn);
      hide SetIfGiven, WithoutLow, LoadRelay, SetLpn, Bit, And;
    }
  }

  lemma SetLpnBits(c: Config, on: Option<bool>, i: nat)
    ensures var c' := SetLpn(c, on);
            && Bit(c'.target, i) == (if i == LPN && on.Some? then on.value else Bit(c.target, i))
            && Bit(c'.current, i) == (if i == LPN && on.Some? then on.value else Bit(c.current, i))
  {
    SetBitBits(c.target, LPN, i);
    SetBitBits(c.current, LPN, i);
    ClrBitBits(c.target, LPN, i);
    ClrBitBits(c.current, LPN, i);
    hide Bit;
  }

  lemma SetIfGivenBits(c: Config, w: nat, on: Option<bool>, i: nat)
    ensures var c' := SetIfGiven(c, w, on);
            && Bit(c'.target, i) == (if i == w && on.Some? then on.value else Bit(c.target, i))
            && Bit(c'.current, i) == (if i == w && on.Some? then !on.value else Bit(c.current, i))
  {
    if on.Some? {
      SetFeatureBits(c, w, on.value, i);
    }
  }

  lemma LoadFeaturesNumbers(c: Config, o: Option<FeatureObj>)
    ensures var n := LoadFeatures(c, o);
            && n.ttl == c.ttl && n.snb == c.snb && n.netTxp == c.netTxp
            && (n.relayTxp.Some? <==> o.Some? && !RelayMalformed(o.value.relay) && o.value.relay.Some?)
            && (n.relayTxp.Some? ==> RelayNumbers(o.value.relay.value, n.relayTxp.value))
  {
    if o.Some? && !RelayMalformed(o.value.relay) && o.value.relay.Some? {
      var cnt, intv := Or0(o.value.relay.value.cnt, 0), Or0(o.value.relay.value.intv, 0);
      LimitsExactly(cnt, intv, Limited(cnt, intv));
      assert RelayNumbers(o.value.relay.value, Limited(cnt, intv));
    }
    hide RelayNumbers, Limited, And;
  }

  /** The value of this bit is one the template has and the node lacks. */
  predicate Lacks(t: Config, n: Config, i: nat) {
    || (i == TTL && t.ttl.Some? && n.ttl.None?)
    || (i == SNB && t.snb.Some? && n.snb.None?)
    || (i == NETTX && t.netTxp.Some? && n.netTxp.None?)
  }

  /** Every value the node lacks is the template's, and its bit is made to differ; a value it
      has stays, with its bit.  The low bits and the relay's numbers are the template's when the
      node has none of the low bits in either bitmap. */
  ghost predicate TemplateCopied(t: Config, was: Config, now: Config) {
    && now.ttl == (if was.ttl.Some? then was.ttl else t.ttl)
    && now.snb == (if was.snb.Some? then was.snb else t.snb)
    && now.netTxp == (if was.netTxp.Some? then was.netTxp else t.netTxp)
    && (forall i: nat :: 4 <= i ==>
          && Bit(now.target, i) == (Lacks(t, was, i) || Bit(was.target, i))
          && Bit(now.current, i) == (!Lacks(t, was, i) && Bit(was.current, i)))
    && if forall i: nat :: i < 4 ==> !Touched(was, i) then
         && (forall i: nat :: i < 4 ==>
               Bit(now.target, i) == Bit(t.target, i) && Bit(now.current, i) == Bit(t.current, i))
         && now.relayTxp == t.relayTxp
       else
         && (forall i: nat :: i < 4 ==>
               Bit(now.target, i) == Bit(was.target, i) && Bit(now.current, i) == Bit(was.current, i))
         && now.relayTxp == was.relayTxp
  }

  lemma CopyTemplateExactly(t: Config, n: Config)
    ensures CopyTemplate(t, n).ok <==> n.relayTxp.None? || exists i: nat :: i < 4 && Touched(n, i)
    ensures CopyTemplate(t, n).ok ==> TemplateCopied(t, n, CopyTemplate(t, n).c)
  {
    CopyKeepsLow(t, n);
    LowClearBits(n);
    var r := CopyTemplate(t, n);
    if r.ok {
      CopyTemplateValues(t, n);
      hide CopyTemplate, LowClear;
      forall i: nat
        ensures BitCopied(t, n, r.c, i)
      {
        CopyTemplateBits(t, n, i);
      }
      BitsCopied(t, n, r.c);
      hide BitCopied, Bit;
    }
  }

  lemma BitsCopied(t: Config, was: Config, now: Config)
    requires forall i: nat :: BitCopied(t, was, now, i)
    ensures forall i: nat :: 4 <= i ==>
              && Bit(now.target, i) == (Lacks(t, was, i) || Bit(was.target, i))
              && Bit(now.current, i) == (!Lacks(t, was, i) && Bit(was.current, i))
    ensures forall i: nat :: i < 4 ==>
              && Bit(now.target, i) == (if LowClear(was) then Bit(t.target, i) else Bit(was.target, i))
              && Bit(now.current, i) == (if LowClear(was) then Bit(t.current, i) else Bit(was.current, i))
  {
    forall i: nat
      ensures 4 <= i ==>
                && Bit(now.target, i) == (Lacks(t, was, i) || Bit(was.target, i))
                && Bit(now.current, i) == (!Lacks(t, was, i) && Bit(was.current, i))
      ensures i < 4 ==>
                && Bit(now.target, i) == (if LowClear(was) then Bit(t.target, i) else Bit(was.target, i))
                && Bit(now.current, i) == (if LowClear(was) then Bit(t.current, i) else Bit(was.current, i))
    {
      assert BitCopied(t, was, now, i);
      hide LowClear, Lacks;
    }
  }

  predicate BitCopied(t: Config, was: Config, now: Config, i: nat) {
    if i < 4 then
      && Bit(now.target, i) == (if LowClear(was) then Bit(t.target, i) else Bit(was.target, i))
      && Bit(now.current, i) == (if LowClear(was) then Bit(t.current, i) else Bit(was.current, i))
    else
      && Bit(now.target, i) == (Lacks(t, was, i) || Bit(was.target, i))
      && Bit(now.current, i) == (!Lacks(t, was, i) && Bit(was.current, i))
  }

  lemma CopyTemplateValues(t: Config, n: Config)
    requires CopyTemplate(t, n).ok
    ensures var now := CopyTemplate(t, n).c;
            && now.ttl == (if n.ttl.Some? then n.ttl else t.ttl)
            && now.snb == (if n.snb.Some? then n.snb else t.snb)
            && now.netTxp == (if n.netTxp.Some? then n.netTxp else t.netTxp)
            && now.relayTxp == (if LowClear(n) then t.relayTxp else n.relayTxp)
  {
    CopyKeepsLow(t, n);
    hide LowClear;
  }

  lemma CopyTemplateBits(t: Config, n: Config, i: nat)
    requires CopyTemplate(t, n).ok
    ensures BitCopied(t, n, CopyTemplate(t, n).c, i)
  {
    var n1 := CopySnb(t, CopyTtl(t, n));
    var n2 := if LowClear(n1) then CopyLow(t, n1) else n1;
    CopyKeepsLow(t, n);
    CopyFirstBits(t, n, i);
    if LowClear(n1) {
      CopyLowBits(t, n1, i);
    }
    CopyTxpBits(t, n2, i);
    assert n2.netTxp == n.netTxp;
    assert CopyTemplate(t, n).c == CopyTxp(t, n2);
    hide CopyTxp, CopyTtl, CopySnb, LowClear, Bit, CopyLow;
  }

  lemma CopyFirstBits(t: Config, n: Config, i: nat)
    ensures var n' := CopySnb(t, CopyTtl(t, n));
            && Bit(n'.target, i) == ((i != NETTX && Lacks(t, n, i)) || Bit(n.target, i))
            && Bit(n'.current, i) == (!(i != NETTX && Lacks(t, n, i)) && Bit(n.current, i))
  {
    CopyTtlBits(t, n, i);
    CopySnbBits(t, CopyTtl(t, n), i);
    hide CopyTtl, CopySnb, Bit;
  }

  lemma CopyTtlBits(t: Config, n: Config, i: nat)
    ensures var n' := CopyTtl(t, n);
            && n'.snb == n.snb && n'.netTxp == n.netTxp
            && Bit(n'.target, i) == ((i == TTL && Lacks(t, n, i)) || Bit(n.target, i))
            && Bit(n'.current, i) == (!(i == TTL && Lacks(t, n, i)) && Bit(n.current, i))
  {
    SetFeatureBits(n, TTL, true, i);
    hide Bit;
  }

  lemma CopySnbBits(t: Config, n: Config, i: nat)
    ensures var n' := CopySnb(t, n);
            && Bit(n'.target, i) == ((i == SNB && Lacks(t, n, i)) || Bit(n.target, i))
            && Bit(n'.current, i) == (!(i == SNB && Lacks(t, n, i)) && Bit(n.current, i))
  {
    SetFeatureBits(n, SNB, true, i);
    hide Bit;
  }

  lemma CopyTxpBits(t: Config, n: Config, i: nat)
    ensures var n' := CopyTxp(t, n);
            && Bit(n'.target, i) == ((i == NETTX && Lacks(t, n, i)) || Bit(n.target, i))
            && Bit(n'.current, i) == (!(i == NETTX && Lacks(t, n, i)) && Bit(n.current, i))
  {
    SetFeatureBits(n, NETTX, true, i);
    hide SetFeature, Bit;
  }

  lemma CopyLowBits(t: Config, n: Config, i: nat)
    requires LowClear(n)
    ensures var n' := CopyLow(t, n);
            && Bit(n'.target, i) == (if i < 4 then Bit(t.target, i) else Bit(n.target, i))
            && Bit(n'.current, i) == (if i < 4 then Bit(t.current, i) else Bit(n.current, i))
  {
    LowClearBits(n);
    assert i < 4 ==> !Touched(n, i);
    MaskBits(i);
    AndBits(t.target, LOW, i);
    AndBits(t.current, LOW, i);
    OrBits(n.target, And(t.target, LOW), i);
    OrBits(n.current, And(t.current, LOW), i);
    hide Bit, And, Or, LowClear;
  }

  /* Set Config converges */

  /** The node with this configuration. */
  function NodeOf(c: Config, addr: int, bindings: seq<int>, pub: Option<Publication>, sublist: seq<int>): Node {
    Node(NodeConfig(addr, bindings, pub, sublist, c.ttl, c.netTxp, c.relayTxp, c.target), c.current, 0, false)
  }

  /** Every feature bit that differs has a command with its parameters. */
  ghost predicate Commanded(n: Node) {
    forall b: nat :: Bit(Diff(n), b) ==> Settable(b) && FeatureArgs(n.cfg, b).Some?
  }

  lemma ReadyNodesAreCommanded(c: Config, addr: int, bindings: seq<int>, pub: Option<Publication>, sublist: seq<int>)
    requires Ready(c)
    ensures Commanded(NodeOf(c, addr, bindings, pub, sublist))
  {
    var n := NodeOf(c, addr, bindings, pub, sublist);
    forall b: nat | Bit(Diff(n), b)
      ensures Settable(b) && FeatureArgs(n.cfg, b).Some?
    {
      XorBits(c.target, c.current, b);
      assert Differs(c, b);
    }
  }

  /** The node after so many acknowledged feature commands. */
  function SetTimes(n: Node, k: nat): Node
    decreases k
  {
    if k == 0 || Diff(n) == 0 then n else SetTimes(FeatureSet(n, TrailingZeros(Diff(n))), k - 1)
  }

  /** The state always finds a command while a bit differs, each success removes exactly
      that bit, and after as many successes as there were differing bits, and no fewer,
      target and current are equal. */
  lemma {:induction false} SetConfigConverges(n: Node, k: nat)
    requires Commanded(n) && k <= PopCount(Diff(n))
    ensures Commanded(SetTimes(n, k)) && SetTimes(n, k).cfg == n.cfg
    ensures PopCount(Diff(SetTimes(n, k))) == PopCount(Diff(n)) - k
    ensures k < PopCount(Diff(n)) ==> NextFeature(SetTimes(n, k)).Cmd?
    ensures k == PopCount(Diff(n)) ==> SetTimes(n, k).current == n.cfg.target && NextFeature(SetTimes(n, k)) == NoItem
    decreases k
  {
    if k > 0 {
      var w := TrailingZeros(Diff(n));
      var n' := FeatureSet(n, w);
      FeatureSetClears(n, w);
      forall b: nat | Bit(Diff(n'), b)
        ensures Settable(b) && FeatureArgs(n'.cfg, b).Some?
      {
        ClrBitBits(Diff(n), w, b);
        assert Bit(Diff(n), b);
      }
      SetConfigConverges(n', k - 1);
    } else if PopCount(Diff(n)) == 0 {
      NoBitsLeft(n);
    } else {
      var w := TrailingZeros(Diff(n));
      assert Bit(Diff(n), w);
    }
  }

  lemma NoBitsLeft(n: Node)
    requires PopCount(Diff(n)) == 0
    ensures Diff(n) == 0 && n.current == n.cfg.target
  {
    if Diff(n) != 0 {
      var i := SomeBit(Diff(n));
      ClrBitSmaller(Diff(n), i);
    }
    forall i: nat
      ensures Bit(n.cfg.target, i) == Bit(n.current, i)
    {
      XorBits(n.cfg.target, n.current, i);
      ZeroHasNoBits(i);
    }
    SameBits(n.cfg.target, n.current);
  }
}
