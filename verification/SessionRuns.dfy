/** What holds after every run of a session: any number of loads, passes, pages and
    replies, with the device carrying out timed-out commands or not. */
module SessionRuns {
  import opened Bits
  import opened Odometer
  import opened Mesh
  import opened Slot
  import opened Session
  import opened SessionSound
  import opened Progress
  import opened SessionProgress
  import opened Wanted

  /** A sequence of steps the environment may take from s. */
  ghost predicate Runs(s: Session, acts: seq<Act>, keys: seq<AppKey>)
    decreases |acts|
  {
    acts == [] ||
    (Legal(s, acts[0]) && Benign(s, acts[0], keys) && (acts[0].Reply? ==> Works(s.c.state))
     && Runs(Step(s, acts[0], keys).s, acts[1..], keys))
  }

  ghost function After(s: Session, acts: seq<Act>, keys: seq<AppKey>): Session
    requires Runs(s, acts, keys)
    decreases |acts|
  {
    if acts == [] then s else After(Step(s, acts[0], keys).s, acts[1..], keys)
  }

  lemma PrependAct(t: Session, act: Act, acts: seq<Act>, keys: seq<AppKey>)
    requires Legal(t, act) && Benign(t, act, keys) && (act.Reply? ==> Works(t.c.state))
    requires Runs(Step(t, act, keys).s, acts, keys)
    ensures Runs(t, [act] + acts, keys)
    ensures After(t, [act] + acts, keys) == After(Step(t, act, keys).s, acts, keys)
  {
  }

  /** One run after another. */
  lemma {:induction false} RunsJoin(s: Session, acts: seq<Act>, more: seq<Act>, keys: seq<AppKey>)
    requires Runs(s, acts, keys) && Runs(After(s, acts, keys), more, keys)
    ensures Runs(s, acts + more, keys)
    ensures After(s, acts + more, keys) == After(After(s, acts, keys), more, keys)
    decreases |acts|
  {
    hide Step, Benign;
    if acts == [] {
      assert acts + more == more;
    } else {
      assert (acts + more)[1..] == acts[1..] + more;
      hide Legal;
      RunsJoin(Step(s, acts[0], keys).s, acts[1..], more, keys);
    }
  }

  /** No ASSERT fires on the way. */
  ghost predicate NoAbort(s: Session, acts: seq<Act>, keys: seq<AppKey>)
    requires Runs(s, acts, keys)
    decreases |acts|
  {
    acts == [] || (Step(s, acts[0], keys).ok && NoAbort(Step(s, acts[0], keys).s, acts[1..], keys))
  }

  /** So many timeouts of a command that never arrives, each resend accepted. */
  function Lost(n: nat): seq<Act> {
    if n == 0 then [] else [Reply(Timeout, false, Accepted(0))] + Lost(n - 1)
  }

  /** A node never worked on: no error bit, not done, and a device that may hold any
      configuration from elsewhere. */
  ghost predicate Begins(s: Session, keys: seq<AppKey>) {
    && s.c == EMPTY && s.w.out.None? && s.w.log == [] && !s.w.dev.wiped
    && s.n.err == 0 && !s.n.done
    && WellConfigured(s.n, s.w.comp, keys)
    && (forall b: nat :: b in s.w.due ==> Bit(Diff(s.n), b))
  }

  lemma BeginsWell(s: Session, keys: seq<AppKey>)
    requires Begins(s, keys)
    ensures Sound(s, keys) && Progressing(s, keys)
  {
  }

  lemma {:induction false} RunsKeep(s: Session, acts: seq<Act>, keys: seq<AppKey>)
    requires Runs(s, acts, keys) && Sound(s, keys) && Progressing(s, keys)
    ensures NoAbort(s, acts, keys)
    ensures Sound(After(s, acts, keys), keys) && Progressing(After(s, acts, keys), keys)
    ensures After(s, acts, keys).w.comp == s.w.comp && After(s, acts, keys).w.due == s.w.due
    ensures After(s, acts, keys).n.cfg == s.n.cfg
    decreases |acts|
  {
    hide Sound, Progressing;
    if acts != [] {
      StepSound(s, acts[0], keys);
      StepProgress(s, acts[0], keys);
      StepConstants(s, acts[0], keys);
      hide Step, Legal, Benign;
      RunsKeep(Step(s, acts[0], keys).s, acts[1..], keys);
    }
  }

  lemma StepConstants(s: Session, act: Act, keys: seq<AppKey>)
    requires Sound(s, keys) && Legal(s, act) && Benign(s, act, keys)
    requires act.Reply? ==> Works(s.c.state)
    ensures var s' := Step(s, act, keys).s;
            s'.w.comp == s.w.comp && s'.w.due == s.w.due && s'.n.cfg == s.n.cfg
  {
    if act.EnginePass? {
      PassSound(s, keys, act.timeUp, act.ans);
      hide Pass, Sound;
    } else if act.Reply? {
      hide Handle, Sound;
    }
  }

  /** No slot gets stuck: after every run a slot in use awaits a response, or has a
      resend pending, or has a state to enter, and only one of the three; and no ASSERT
      of the engine or of a callback fired on the way. */
  lemma NoSlotGetsStuck(s: Session, acts: seq<Act>, keys: seq<AppKey>)
    requires Begins(s, keys) && Runs(s, acts, keys)
    ensures NoAbort(s, acts, keys)
    ensures var c := After(s, acts, keys).c;
            c.node.Some? ==>
              && !(c.wait && c.oom)
              && (c.next != c.state <==> !c.wait && !c.oom)
              && (c.wait <==> After(s, acts, keys).w.out.Some?)
  {
    BeginsWell(s, keys);
    RunsKeep(s, acts, keys);
    hide Step, Legal, Benign, Runs, After, WellConfigured;
  }

  /** Over whole runs, whatever is lost or repeated, a binding goes out only after its key
      was acknowledged, and a publication only after the binding of its key to its model. */
  lemma CommandOrder(s: Session, acts: seq<Act>, keys: seq<AppKey>)
    requires Begins(s, keys) && Runs(s, acts, keys)
    ensures var log := After(s, acts, keys).w.log;
            && (forall i :: 0 <= i < |log| && log[i].Sent? && log[i].cmd.Bind? ==>
                  exists j :: 0 <= j < i && log[j] == Got(AddKey(log[i].cmd.key), Success))
            && (forall i :: 0 <= i < |log| && log[i].Sent? && log[i].cmd.SetPub? ==>
                  exists j :: 0 <= j < i
                    && log[j] == Got(Bind(log[i].cmd.e, log[i].cmd.model, log[i].cmd.key), Success))
  {
    BeginsWell(s, keys);
    RunsKeep(s, acts, keys);
    hide Step, Legal, Benign, Runs, After, Good, Sound;
    var log := After(s, acts, keys).w.log;
    assert Ordered(log);
    forall i | 0 <= i < |log| && log[i].Sent? && (log[i].cmd.Bind? || log[i].cmd.SetPub?)
      ensures log[i].cmd.Bind? ==> exists j :: 0 <= j < i && log[j] == Got(AddKey(log[i].cmd.key), Success)
      ensures log[i].cmd.SetPub? ==>
                exists j :: 0 <= j < i && log[j] == Got(Bind(log[i].cmd.e, log[i].cmd.model, log[i].cmd.key), Success)
    {
      assert Justified(log[..i], log[i]);
    }
  }

  /* Configured means configured */

  /** The key is bound to every model of the elements: to the SIG models under the vendor of all
      SIG models, and to the vendor models. */
  ghost predicate BoundToAll(id: int, w: World) {
    forall e :: 0 <= e < |w.comp| ==>
      && (forall x :: x in w.comp[e].sig ==> (e, Model(SIG_VENDOR_ID, x), id) in w.dev.bound)
      && (forall v :: v in w.comp[e].vendor ==> (e, v, id) in w.dev.bound)
  }

  /** Every key of the configuration that exists is on the device and bound to every model. */
  ghost predicate AllBound(n: Node, keys: seq<AppKey>, w: World) {
    forall refid, id :: refid in n.cfg.bindings && FirstKey(keys, refid, id) ==>
      id in w.dev.keys && BoundToAll(id, w)
  }

  /** The model publishes as configured, or reported to have no publication. */
  ghost predicate Publishes(k: ModelKey, key: int, p: Publication, w: World) {
    || (k in w.dev.pubs && Carries(w.dev.pubs[k], k, key, p))
    || exists cmd :: Carries(cmd, k, key, p) && Got(cmd, NotInitialized) in w.log
  }

  /** With the publication's key among the bindings, every model that is not one without
      publication publishes as configured, and so does the first model of each element. */
  ghost predicate AllPublish(n: Node, keys: seq<AppKey>, w: World) {
    n.cfg.pub.Some? && n.cfg.pub.value.aki in n.cfg.bindings ==>
      var p := n.cfg.pub.value;
      forall e, id :: 0 <= e < |w.comp| && FirstKey(keys, p.aki, id) ==>
        var el := w.comp[e];
        && (forall i :: 0 <= i < |el.sig| && (i == 0 || el.sig[i] !in NOT_PUB) ==>
              Publishes((e, Model(SIG_VENDOR_ID, el.sig[i])), id, p, w))
        && (forall i :: 0 <= i < |el.vendor| && (i == |el.sig| == 0 || el.vendor[i].mid !in NOT_PUB) ==>
              Publishes((e, el.vendor[i]), id, p, w))
  }

  /** The model is subscribed to the configured addresses and to no other, or ran out of room. */
  ghost predicate Subscribes(k: ModelKey, sublist: seq<int>, w: World) {
    NoRoom(w, k) || (k in w.dev.subs && forall a :: a in w.dev.subs[k] <==> a in sublist)
  }

  /** So is every model that is not one without subscription, and the first of each element. */
  ghost predicate AllSubscribe(n: Node, w: World) {
    |n.cfg.sublist| > 0 ==>
      forall e :: 0 <= e < |w.comp| ==>
        var el := w.comp[e];
        && (forall i :: 0 <= i < |el.sig| && (i == 0 || el.sig[i] !in NOT_SUB) ==>
              Subscribes((e, Model(SIG_VENDOR_ID, el.sig[i])), n.cfg.sublist, w))
        && (forall i :: 0 <= i < |el.vendor| && (i == |el.sig| == 0 || el.vendor[i].mid !in NOT_SUB) ==>
              Subscribes((e, el.vendor[i]), n.cfg.sublist, w))
  }

  /** Every feature that was to be set has the values of the configuration, and none differs. */
  ghost predicate AllFeatures(n: Node, w: World) {
    && n.current == n.cfg.target
    && forall b: nat :: b in w.due ==> b in w.dev.feats && Asked(n.cfg, b, w.dev.feats[b])
  }

  /* From the items of the states to the models of the elements */

  lemma BoundThere(e: int, m: int, k: int, n: Node, keys: seq<AppKey>, w: World, id: int)
    requires CompleteBelow(END, n, keys, w)
    requires 0 <= e < |w.comp| && 0 <= m < ModelCount(w.comp[e])
    requires 0 <= k < |n.cfg.bindings| && FirstKey(keys, n.cfg.bindings[k], id)
    ensures id in w.dev.keys && (e, ModelAt(w.comp[e], m), id) in w.dev.bound
  {
    hide FirstKey;
    assert KeyId(keys, n.cfg.bindings[k]) == Some(id);
    assert Complete(ADD_APPKEY, n, keys, w);
    assert ItemDone(ADD_APPKEY, Pos(0, 0, k), n, keys, w);
    assert Complete(BIND, n, keys, w);
    assert ItemDone(BIND, Pos(e, m, k), n, keys, w);
  }

  lemma CompleteKeysBound(n: Node, keys: seq<AppKey>, w: World)
    requires CompleteBelow(END, n, keys, w) && |w.comp| > 0
    requires forall e :: 0 <= e < |w.comp| ==> ModelCount(w.comp[e]) > 0
    ensures AllBound(n, keys, w)
  {
    hide CompleteBelow, FirstKey;
    forall refid, id | refid in n.cfg.bindings && FirstKey(keys, refid, id)
      ensures id in w.dev.keys && BoundToAll(id, w)
    {
      var k :| 0 <= k < |n.cfg.bindings| && n.cfg.bindings[k] == refid;
      BoundThere(0, 0, k, n, keys, w, id);
      forall e | 0 <= e < |w.comp|
        ensures forall x :: x in w.comp[e].sig ==> (e, Model(SIG_VENDOR_ID, x), id) in w.dev.bound
        ensures forall v :: v in w.comp[e].vendor ==> (e, v, id) in w.dev.bound
      {
        forall m | 0 <= m < ModelCount(w.comp[e])
          ensures (e, ModelAt(w.comp[e], m), id) in w.dev.bound
        {
          BoundThere(e, m, k, n, keys, w, id);
        }
        EveryModel(w.comp[e], set m | 0 <= m < ModelCount(w.comp[e]) :: ModelAt(w.comp[e], m));
      }
    }
  }

  /** What has the models at all places has all models. */
  lemma EveryModel(el: Element, models: set<Model>)
    requires forall m :: 0 <= m < ModelCount(el) ==> ModelAt(el, m) in models
    ensures forall x :: x in el.sig ==> Model(SIG_VENDOR_ID, x) in models
    ensures forall v :: v in el.vendor ==> v in models
  {
    forall x | x in el.sig
      ensures Model(SIG_VENDOR_ID, x) in models
    {
      var m :| 0 <= m < |el.sig| && el.sig[m] == x;
      assert ModelAt(el, m) == Model(SIG_VENDOR_ID, x);
    }
    forall v | v in el.vendor
      ensures v in models
    {
      var i :| 0 <= i < |el.vendor| && el.vendor[i] == v;
      assert ModelAt(el, |el.sig| + i) == v;
    }
  }

  lemma PublishesThere(e: int, m: int, n: Node, keys: seq<AppKey>, w: World, id: int)
    requires CompleteBelow(END, n, keys, w)
    requires 0 <= e < |w.comp| && 0 <= m < ModelCount(w.comp[e])
    requires n.cfg.pub.Some? && n.cfg.pub.value.aki in n.cfg.bindings && FirstKey(keys, n.cfg.pub.value.aki, id)
    requires m == 0 || ModelAt(w.comp[e], m).mid !in NOT_PUB
    ensures Publishes((e, ModelAt(w.comp[e], m)), id, n.cfg.pub.value, w)
  {
    hide FirstKey;
    var model, p := ModelAt(w.comp[e], m), n.cfg.pub.value;
    assert KeyId(keys, p.aki) == Some(id);
    assert Complete(SET_PUB, n, keys, w);
    assert ItemDone(SET_PUB, Pos(e, m, 0), n, keys, w);
    PubCommandCarries(e, model, id, p, PubCommand(e, model, id, p));
  }

  lemma CompletePublishes(n: Node, keys: seq<AppKey>, w: World)
    requires CompleteBelow(END, n, keys, w)
    ensures AllPublish(n, keys, w)
  {
    hide CompleteBelow, FirstKey, Publishes;
    if n.cfg.pub.Some? && n.cfg.pub.value.aki in n.cfg.bindings {
      var p := n.cfg.pub.value;
      forall e, id | 0 <= e < |w.comp| && FirstKey(keys, p.aki, id)
        ensures forall i :: 0 <= i < |w.comp[e].sig| && (i == 0 || w.comp[e].sig[i] !in NOT_PUB) ==>
                  Publishes((e, Model(SIG_VENDOR_ID, w.comp[e].sig[i])), id, p, w)
        ensures forall i :: 0 <= i < |w.comp[e].vendor| &&
                            (i == |w.comp[e].sig| == 0 || w.comp[e].vendor[i].mid !in NOT_PUB) ==>
                  Publishes((e, w.comp[e].vendor[i]), id, p, w)
      {
        var el := w.comp[e];
        forall i | 0 <= i < |el.sig| && (i == 0 || el.sig[i] !in NOT_PUB)
          ensures Publishes((e, Model(SIG_VENDOR_ID, el.sig[i])), id, p, w)
        {
          PublishesThere(e, i, n, keys, w, id);
        }
        forall i | 0 <= i < |el.vendor| && (i == |el.sig| == 0 || el.vendor[i].mid !in NOT_PUB)
          ensures Publishes((e, el.vendor[i]), id, p, w)
        {
          PublishesThere(e, |el.sig| + i, n, keys, w, id);
        }
      }
    }
  }

  lemma SubscribesThere(e: int, m: int, n: Node, keys: seq<AppKey>, w: World)
    requires CompleteBelow(END, n, keys, w)
    requires 0 <= e < |w.comp| && 0 <= m < ModelCount(w.comp[e])
    requires |n.cfg.sublist| > 0 && (m == 0 || ModelAt(w.comp[e], m).mid !in NOT_SUB)
    ensures Subscribes((e, ModelAt(w.comp[e], m)), n.cfg.sublist, w)
  {
    hide NoRoom;
    assert Complete(ADD_SUB, n, keys, w);
    assert ItemDone(ADD_SUB, Pos(e, m, 0), n, keys, w);
    assert n.cfg.sublist[0] in SetOf(n.cfg.sublist);
  }

  lemma CompleteSubscribes(n: Node, keys: seq<AppKey>, w: World)
    requires CompleteBelow(END, n, keys, w)
    ensures AllSubscribe(n, w)
  {
    hide CompleteBelow, Subscribes;
    if |n.cfg.sublist| > 0 {
      forall e, i | 0 <= e < |w.comp| && 0 <= i < |w.comp[e].sig| && (i == 0 || w.comp[e].sig[i] !in NOT_SUB)
        ensures Subscribes((e, Model(SIG_VENDOR_ID, w.comp[e].sig[i])), n.cfg.sublist, w)
      {
        SubscribesThere(e, i, n, keys, w);
      }
      forall e, i | 0 <= e < |w.comp| && 0 <= i < |w.comp[e].vendor|
                    && (i == |w.comp[e].sig| == 0 || w.comp[e].vendor[i].mid !in NOT_SUB)
        ensures Subscribes((e, w.comp[e].vendor[i]), n.cfg.sublist, w)
      {
        SubscribesThere(e, |w.comp[e].sig| + i, n, keys, w);
      }
    }
  }

  lemma CompleteFeatures(n: Node, keys: seq<AppKey>, w: World)
    requires CompleteBelow(END, n, keys, w) && FeaturesSet(n, w)
    requires forall b: nat :: b in w.due ==> Settable(b)
    ensures AllFeatures(n, w)
  {
    assert Complete(SET_CONFIG, n, keys, w);
    assert Diff(n) == 0;
    forall i: nat
      ensures !Bit(Diff(n), i)
      ensures Bit(n.cfg.target, i) == Bit(n.current, i)
    {
      ZeroHasNoBits(i);
      XorBits(n.cfg.target, n.current, i);
    }
    SameBits(n.cfg.target, n.current);
    hide CompleteBelow, Diff, Bit;
    forall b: nat | b in w.due
      ensures b in w.dev.feats && Asked(n.cfg, b, w.dev.feats[b])
    {
      FeatureArgsAsked(n.cfg, b, w.dev.feats[b]);
    }
  }

  /** Configured means configured: whenever the end state has marked a node done, after
      however many failed runs before, its device holds the whole configuration on the
      elements stored of its composition data. */
  lemma ConfiguredMeansConfigured(s: Session, acts: seq<Act>, keys: seq<AppKey>)
    requires Begins(s, keys) && Runs(s, acts, keys)
    ensures var t := After(s, acts, keys);
            t.n.done && !t.w.dev.wiped ==>
              AllBound(t.n, keys, t.w) && AllPublish(t.n, keys, t.w) && AllSubscribe(t.n, t.w) && AllFeatures(t.n, t.w)
  {
    BeginsWell(s, keys);
    RunsKeep(s, acts, keys);
    var t := After(s, acts, keys);
    hide Step, Legal, Benign, Runs, After, Good, Sound;
    if t.n.done && !t.w.dev.wiped {
      CompleteKeysBound(t.n, keys, t.w);
      CompletePublishes(t.n, keys, t.w);
      CompleteSubscribes(t.n, keys, t.w);
      CompleteFeatures(t.n, keys, t.w);
    }
  }

  /** Resume skips nothing: after every run, an idle node carries no error bit or the bit
      of one state, and on its device every state below the one its next run goes to
      after Get DCD is complete. */
  lemma ResumeSkipsNothing(s: Session, acts: seq<Act>, keys: seq<AppKey>)
    requires Begins(s, keys) && Runs(s, acts, keys)
    ensures var t := After(s, acts, keys);
            t.c == EMPTY && !t.w.dev.wiped ==>
              && OneErrorBit(t.n.err)
              && CompleteBelow(FirstState(t.n.err), t.n, keys, t.w)
  {
    BeginsWell(s, keys);
    RunsKeep(s, acts, keys);
    hide Step, Legal, Benign, Runs, After, CompleteBelow, WellConfigured;
  }

  /** A configuration run that fails records exactly the bit of the slot's state, which is
      the failed state or, when an entry callback failed, a state before it; and every
      state before that bit is complete. */
  lemma FailureRecordsOneBit(s: Session, act: Act, keys: seq<AppKey>)
    requires Sound(s, keys) && Progressing(s, keys) && ConfigRun(s.c)
    requires act.EnginePass? && Legal(s, act) && Benign(s, act, keys)
    requires Step(s, act, keys).release == Freed(true)
    ensures var t := Step(s, act, keys).s;
            && t.n.err == Pow2(s.c.state) && 1 <= s.c.state <= SET_CONFIG
            && CompleteBelow(s.c.state, t.n, keys, t.w)
            && (ADD_APPKEY <= s.c.state ==> FirstState(t.n.err) == s.c.state)
  {
    PassSound(s, keys, act.timeUp, act.ans);
    SettleProgress(s, act.effect, keys);
    StepProgress(s, act, keys);
    hide Pass, Sound, Good, FeaturesSet, WellConfigured;
    ResumeAtTheBit(Pow2(s.c.state), s.c.state);
    FailureStays(s, act, keys);
  }

  /** The release keeps the device. */
  lemma FailureStays(s: Session, act: Act, keys: seq<AppKey>)
    requires Sound(s, keys) && ConfigRun(s.c) && act.EnginePass? && Legal(s, act)
    requires !(if GuardFires(s.c, act.timeUp) then Settle(s.w, act.effect) else s.w).dev.wiped
    ensures !Step(s, act, keys).s.w.dev.wiped && 1 <= s.c.state <= SET_CONFIG
  {
  }
}
