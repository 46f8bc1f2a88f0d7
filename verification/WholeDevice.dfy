/** The whole of a device and the elements the engine knows of.  Get DCD stores as many
    elements of the page as it counts; what a node marked done means for the device is what
    it means for these, and so for all of it exactly when the count is right. */
module WholeDevice {
  import opened Bits
  import opened Mesh
  import opened Slot
  import opened Session
  import opened SessionSound
  import opened Progress
  import opened SessionProgress
  import opened SessionRuns
  import opened Service
  import D = DcdPage
  import G = Phases
  import P = PhaseRuns
  import Y = System
  import R = SystemRuns

  /** The command leaves the elements from n on alone. */
  predicate KeepsFrom(n: nat, cmd: Command) {
    match cmd
    case Bind(e, _, _) => e < n
    case SetPub(e, _, _, _, _, _, _, _) => e < n
    case SetSub(e, _, _) => e < n
    case AddSub(e, _, _) => e < n
    case Reset => false
    case _ => true
  }

  /** The elements from n on hold the bindings, publications and subscriptions they held. */
  ghost predicate SameFrom(n: nat, d: Device, was: Device) {
    && (forall e, model, key :: e >= n ==> ((e, model, key) in d.bound <==> (e, model, key) in was.bound))
    && (forall e, model :: e >= n ==>
          ((e, model) in d.pubs <==> (e, model) in was.pubs)
          && ((e, model) in d.pubs ==> d.pubs[(e, model)] == was.pubs[(e, model)]))
    && (forall e, model :: e >= n ==> Subs(d, (e, model)) == Subs(was, (e, model)))
  }

  lemma ApplyKeeps(n: nat, d: Device, was: Device, cmd: Command)
    requires SameFrom(n, d, was) && KeepsFrom(n, cmd)
    ensures SameFrom(n, Apply(d, cmd), was)
  {
  }

  /** The engine sends commands to the elements it knows of only. */
  lemma DueKeeps(s: Session, keys: seq<AppKey>)
    requires Sound(s, keys) && s.w.out.Some?
    ensures s.w.out.value.Reset? || KeepsFrom(|s.w.comp|, s.w.out.value)
  {
    Awaiting(s, keys);
    hide WellConfigured, OneErrorBit;
  }

  ghost predicate Untouched(s: Session, was: Device) {
    s.w.dev.wiped || SameFrom(|s.w.comp|, s.w.dev, was)
  }

  lemma SettleKeeps(s: Session, was: Device, effect: bool, keys: seq<AppKey>)
    requires Sound(s, keys) && Untouched(s, was)
    ensures Untouched(s.(w := Settle(s.w, effect)), was)
  {
    if effect && s.w.out.Some? {
      DueKeeps(s, keys);
      hide Sound, SameFrom, KeepsFrom;
      if !s.w.dev.wiped && !s.w.out.value.Reset? {
        ApplyKeeps(|s.w.comp|, s.w.dev, was, s.w.out.value);
      }
    }
  }

  lemma StepKeeps(s: Session, act: Act, was: Device, keys: seq<AppKey>)
    requires Sound(s, keys) && Legal(s, act) && Benign(s, act, keys) && Untouched(s, was)
    requires act.Reply? ==> Works(s.c.state)
    ensures Untouched(Step(s, act, keys).s, was)
  {
    hide SameFrom, Sound, Handle, Pass;
    var effect := if act.EnginePass? then act.effect else act.Reply? && (act.effect || act.st == Success);
    SettleKeeps(s, was, effect, keys);
  }

  lemma {:induction false} RunKeeps(s: Session, acts: seq<Act>, was: Device, keys: seq<AppKey>)
    requires Sound(s, keys) && Runs(s, acts, keys) && Untouched(s, was)
    ensures Untouched(After(s, acts, keys), was)
    decreases |acts|
  {
    hide Sound, Untouched;
    if acts != [] {
      StepSound(s, acts[0], keys);
      StepKeeps(s, acts[0], was, keys);
      hide Step, Legal, Benign;
      RunKeeps(Step(s, acts[0], keys).s, acts[1..], was, keys);
    }
  }

  /** The elements not stored keep what they held: over whole runs the engine changes nothing
      on them, unless it removes the node. */
  lemma OtherElementsUntouched(s: Session, acts: seq<Act>, keys: seq<AppKey>)
    requires Begins(s, keys) && Runs(s, acts, keys)
    ensures var t := After(s, acts, keys);
            t.w.comp == s.w.comp && (!t.w.dev.wiped ==> SameFrom(|s.w.comp|, t.w.dev, s.w.dev))
  {
    BeginsWell(s, keys);
    RunKeeps(s, acts, s.w.dev, keys);
    RunsKeep(s, acts, keys);
    hide Begins, Runs, After, SameFrom;
  }

  /** What is stored of a page is determined by the page, and is the beginning of it. */
  lemma StoredOnce(p: D.Page, elems: seq<Element>)
    requires D.ValidPage(p) && D.StoredAs(p, elems)
    ensures |D.Encode(p)| >= 14 && |elems| <= |p.elems| && D.StopsAt(D.Encode(p), |elems|)
    ensures elems == D.Decoded(p.elems)[..|elems|]
    ensures D.StopsAt(D.Encode(p), |p.elems|) <==> elems == D.Decoded(p.elems)
  {
    hide D.Encode, D.StopsAt, D.ValidPage;
    var k: nat :| D.StopsAt(D.Encode(p), k) && k <= |p.elems| && elems == D.Decoded(p.elems[..k]);
    assert p.elems[..|p.elems|] == p.elems;
    D.StopsOnce(D.Encode(p), k, |p.elems|);
  }

  /** The device with all its elements. */
  function Whole(w: World, p: D.Page): World {
    w.(comp := D.Decoded(p.elems))
  }

  /** Configured means configured for the whole device when its page is counted right. */
  lemma WholeDeviceConfigured(s: Session, acts: seq<Act>, keys: seq<AppKey>, p: D.Page)
    requires Begins(s, keys) && Runs(s, acts, keys)
    requires D.ValidPage(p) && D.StoredAs(p, s.w.comp) && D.StopsAt(D.Encode(p), |p.elems|)
    ensures var t := After(s, acts, keys);
            t.n.done && !t.w.dev.wiped ==>
              && AllBound(t.n, keys, Whole(t.w, p)) && AllPublish(t.n, keys, Whole(t.w, p))
              && AllSubscribe(t.n, Whole(t.w, p)) && AllFeatures(t.n, Whole(t.w, p))
  {
    StoredOnce(p, s.w.comp);
    OtherElementsUntouched(s, acts, keys);
    ConfiguredMeansConfigured(s, acts, keys);
    hide Begins, Runs, After, AllBound, AllPublish, AllSubscribe, D.StoredAs, D.StopsAt, D.ValidPage;
    var t := After(s, acts, keys);
    assert Whole(t.w, p) == t.w;
  }

  /** And only then: a device that starts without bindings, all of whose elements have models
      to bind the first key to, has the keys bound to all of them exactly when the page is
      counted right. */
  lemma WholeDeviceExactly(s: Session, acts: seq<Act>, keys: seq<AppKey>, p: D.Page)
    requires Begins(s, keys) && Runs(s, acts, keys) && s.w.dev.bound == {}
    requires D.ValidPage(p) && D.StoredAs(p, s.w.comp)
    requires |s.n.cfg.bindings| > 0 && forall e :: 0 <= e < |p.elems| ==> ModelCount(D.Decoded(p.elems)[e]) > 0
    ensures |D.Encode(p)| >= 14
    ensures var t := After(s, acts, keys);
            t.n.done && !t.w.dev.wiped ==>
              (AllBound(t.n, keys, Whole(t.w, p)) <==> D.StopsAt(D.Encode(p), |p.elems|))
  {
    StoredOnce(p, s.w.comp);
    var t := After(s, acts, keys);
    if D.StopsAt(D.Encode(p), |p.elems|) {
      WholeDeviceConfigured(s, acts, keys, p);
    } else if t.n.done && !t.w.dev.wiped {
      OtherElementsUntouched(s, acts, keys);
      BeginsWell(s, keys);
      RunsKeep(s, acts, keys);
      var n := |s.w.comp|;
      assert n < |p.elems|;
      hide Runs, After, D.StoredAs, D.StopsAt, D.ValidPage, D.Encode, Progressing, D.Decoded;
      NotBoundBehind(t, s.w.dev, n, keys, p);
    }
    hide Begins, Runs, After, AllBound, D.StoredAs, D.StopsAt, D.ValidPage;
  }

  lemma NotBoundBehind(t: Session, was: Device, n: nat, keys: seq<AppKey>, p: D.Page)
    requires SameFrom(n, t.w.dev, was) && was.bound == {}
    requires n < |p.elems| && ModelCount(D.Decoded(p.elems)[n]) > 0
    requires |t.n.cfg.bindings| > 0 && Resolvable(keys, t.n.cfg.bindings[0])
    ensures !AllBound(t.n, keys, Whole(t.w, p))
  {
    var w := Whole(t.w, p);
    var refid, el := t.n.cfg.bindings[0], w.comp[n];
    var id := KeyId(keys, refid).value;
    hide FirstKey;
    assert FirstKey(keys, refid, id) && refid in t.n.cfg.bindings;
    if |el.sig| > 0 {
      assert el.sig[0] in el.sig && (n, Model(SIG_VENDOR_ID, el.sig[0]), id) !in w.dev.bound;
    } else {
      assert el.vendor[0] in el.vendor && (n, el.vendor[0], id) !in w.dev.bound;
    }
    assert !BoundToAll(id, w);
  }

  /** So a device whose three elements have models of 40, 4 and 4 bytes has its third element
      left out when it is marked done. */
  lemma ThirdElementLeftOut(s: Session, acts: seq<Act>, keys: seq<AppKey>, p: D.Page)
    requires Begins(s, keys) && Runs(s, acts, keys) && s.w.dev.bound == {}
    requires D.ValidPage(p) && D.StoredAs(p, s.w.comp) && |p.elems| == 3
    requires D.ModelBytes(p.elems[0]) == 40 && D.ModelBytes(p.elems[1]) == 4 && D.ModelBytes(p.elems[2]) == 4
    requires |s.n.cfg.bindings| > 0 && forall e :: 0 <= e < 3 ==> ModelCount(D.Decoded(p.elems)[e]) > 0
    ensures s.w.comp == D.Decoded(p.elems)[..2]
    ensures var t := After(s, acts, keys);
            t.n.done && !t.w.dev.wiped ==> !AllBound(t.n, keys, Whole(t.w, p))
  {
    D.ThreeCountedAsTwo(p);
    StoredOnce(p, s.w.comp);
    hide D.StopsAt, D.StoredAs, D.ValidPage, D.Encode, D.Decoded, D.ModelBytes, Begins, Runs, After, AllBound;
    D.StopsOnce(D.Encode(p), |s.w.comp|, 2);
    D.StopsOnce(D.Encode(p), 2, 3);
    WholeDeviceExactly(s, acts, keys, p);
  }

  /* Runs that end with elements left out */

  /** Every node never worked on whose page is miscounted can be marked done with elements left
      out: it is when it is served without any loss. */
  lemma MiscountedNodeIsDone(s: Session, id: nat, keys: seq<AppKey>, p: D.Page) returns (acts: seq<Act>)
    requires Begins(s, keys) && s.w.dev.bound == {}
    requires D.ValidPage(p) && D.StoredAs(p, s.w.comp) && !D.StopsAt(D.Encode(p), |p.elems|)
    requires |s.n.cfg.bindings| > 0 && forall e :: 0 <= e < |p.elems| ==> ModelCount(D.Decoded(p.elems)[e]) > 0
    ensures AllServe(acts) && Runs(s, [Load(id, false)] + acts, keys)
    ensures var t := After(s, [Load(id, false)] + acts, keys);
            t.n.done && t.n.err == 0 && !t.w.dev.wiped && !AllBound(t.n, keys, Whole(t.w, p))
  {
    BeginsWell(s, keys);
    assert Legal(s, Load(id, false));
    hide Begins, Runs, After, AllBound, Sound, D.StopsAt, D.StoredAs, D.ValidPage, D.Encode, D.Decoded;
    acts := ServedNodeIsDone(s, id, keys);
    WholeDeviceExactly(s, [Load(id, false)] + acts, keys, p);
  }

  lemma FitsPage(p: D.Page)
    requires |p.head| == 8 && |p.elems| == 3 && D.ValidElems(p.elems)
    requires D.ModelBytes(p.elems[0]) == 40 && D.ModelBytes(p.elems[1]) == 4 && D.ModelBytes(p.elems[2]) == 4
    ensures D.ValidPage(p)
  {
    hide D.ModelBytes, D.ElemsBytes, D.ValidElem;
    var e := p.elems;
    D.ElemsLength(e);
    assert e[..2][..1] == e[..1] && e[..1][..0] == [];
    assert D.AllModelBytes(e) == D.AllModelBytes(e[..2]) + 4;
    assert D.AllModelBytes(e[..2]) == D.AllModelBytes(e[..1]) + 4;
    assert D.AllModelBytes(e[..1]) == 40;
  }

  lemma StoredFrom(p: D.Page, k: nat)
    requires D.ValidPage(p) && |D.Encode(p)| >= 14 && D.StopsAt(D.Encode(p), k) && k <= |p.elems|
    ensures D.StoredAs(p, D.Decoded(p.elems)[..k])
  {
    hide D.ValidPage, D.Encode, D.StopsAt;
    assert D.Decoded(p.elems)[..k] == D.Decoded(p.elems[..k]);
  }

  /** An element with a model that is kept. */
  lemma KeepsModel(elems: seq<D.Reported>, e: nat, mid: D.Word)
    requires e < |elems| && mid in elems[e].sig && mid > D.CONFIGURATION_CLIENT
    ensures ModelCount(D.Decoded(elems)[e]) > 0
  {
    D.KeptShrinks(elems[e].sig);
    assert mid in D.Kept(elems[e].sig);
  }

  lemma SomePage() returns (p: D.Page)
    ensures |p.head| == 8 && |p.elems| == 3 && D.ValidElems(p.elems)
    ensures D.ModelBytes(p.elems[0]) == 40 && D.ModelBytes(p.elems[1]) == 4 && D.ModelBytes(p.elems[2]) == 4
    ensures forall e :: 0 <= e < 3 ==> ModelCount(D.Decoded(p.elems)[e]) > 0
  {
    hide D.Decoded, D.Kept;
    var many := D.Reported(0, seq(20, _ => 0x1000), []);
    var few := D.Reported(0, [0x1000, 0x1001], []);
    assert many.sig[0] == few.sig[0] == 0x1000;
    p := D.Page([0, 0, 0, 0, 0, 0, 0, 0], 0, [many, few, few]);
    forall e: nat | e < 3
      ensures ModelCount(D.Decoded(p.elems)[e]) > 0
    {
      assert p.elems[e].sig[0] == 0x1000;
      KeepsModel(p.elems, e, 0x1000);
    }
  }

  const ONE_KEY := [AppKey(0, 7)]

  const NEW_DEVICE := Device({}, {}, map[], map[], map[], false)

  const NEW_NODE := Node(NodeConfig(5, [0], None, [], None, None, None, 0), 0, 0, false)

  /** A node never worked on, with one key for the models of its elements. */
  lemma NewNodeBegins(comp: seq<Element>)
    requires |comp| > 0 && forall e :: 0 <= e < |comp| ==> ModelCount(comp[e]) > 0
    ensures Begins(Session(EMPTY, NEW_NODE, World(comp, {}, NEW_DEVICE, [], None)), ONE_KEY)
  {
    assert Diff(NEW_NODE) == 0 && KeyId(ONE_KEY, 0) == Some(7);
    forall b: nat
      ensures !Bit(Diff(NEW_NODE), b)
    {
      ZeroHasNoBits(b);
    }
    hide Bit, Diff, KeyId;
  }

  /** For one, a new node whose page has elements with models of 40, 4 and 4 bytes is marked done
      with its third element left out. */
  lemma DoneWithoutThirdElement() returns (p: D.Page, s: Session, acts: seq<Act>)
    ensures D.ValidPage(p) && |p.elems| == 3 && D.StoredAs(p, s.w.comp)
    ensures D.ModelBytes(p.elems[0]) == 40 && D.ModelBytes(p.elems[1]) == 4 && D.ModelBytes(p.elems[2]) == 4
    ensures Begins(s, ONE_KEY) && Runs(s, acts, ONE_KEY)
    ensures var t := After(s, acts, ONE_KEY);
            && s.w.comp == D.Decoded(p.elems)[..2]
            && t.n.done && t.n.err == 0 && !t.w.dev.wiped && !AllBound(t.n, ONE_KEY, Whole(t.w, p))
  {
    hide D.ValidPage, D.ModelBytes, D.Decoded, D.StoredAs, D.StopsAt, D.Encode, D.ValidElems;
    hide Begins, Runs, After, AllBound;
    p := SomePage();
    FitsPage(p);
    D.ThreeCountedAsTwo(p);
    D.StopsOnce(D.Encode(p), 2, 3);
    StoredFrom(p, 2);
    var comp := D.Decoded(p.elems)[..2];
    NewNodeBegins(comp);
    s := Session(EMPTY, NEW_NODE, World(comp, {}, NEW_DEVICE, [], None));
    var more := MiscountedNodeIsDone(s, 5, ONE_KEY, p);
    acts := [Load(5, false)] + more;
  }

  /* The whole engine, and any number of syncs */

  /** The same for every node however the slots interleave. */
  lemma WholeNodesExactly(s: Y.Sys, moves: seq<Y.Move>, keys: seq<AppKey>, id: nat, p: D.Page)
    requires R.Starts(s, keys) && R.Moves(s, moves, keys) && Y.Registered(s, id)
    requires var t := Y.SessionOf(s, id);
             && t.w.dev.bound == {} && D.ValidPage(p) && D.StoredAs(p, t.w.comp)
             && |t.n.cfg.bindings| > 0 && forall e :: 0 <= e < |p.elems| ==> ModelCount(D.Decoded(p.elems)[e]) > 0
    ensures |D.Encode(p)| >= 14 && Y.Registered(R.EndOf(s, moves, keys), id)
    ensures var t := Y.SessionOf(R.EndOf(s, moves, keys), id);
            t.n.done && !t.w.dev.wiped ==>
              (AllBound(t.n, keys, Whole(t.w, p)) <==> D.StopsAt(D.Encode(p), |p.elems|))
  {
    R.StartsWell(s, keys);
    R.RunProjects(s, moves, keys, id);
    hide Y.Inv, R.Moves, Y.SessionOf, Runs, After, Begins, AllBound, D.StopsAt, D.StoredAs, D.ValidPage, D.Encode;
    WholeDeviceExactly(Y.SessionOf(s, id), R.ActsFor(s, moves, keys, id), keys, p);
  }

  /** And over any number of syncs of all nodes. */
  lemma WholeSyncsExactly(m: G.Mgr, acts: seq<G.Act>, keys: seq<AppKey>, id: nat, p: D.Page)
    requires P.Initial(m, keys) && P.Acts(m, acts, keys) && Y.Registered(m.s, id)
    requires var t := Y.SessionOf(m.s, id);
             && t.w.dev.bound == {} && D.ValidPage(p) && D.StoredAs(p, t.w.comp)
             && |t.n.cfg.bindings| > 0 && forall e :: 0 <= e < |p.elems| ==> ModelCount(D.Decoded(p.elems)[e]) > 0
    ensures |D.Encode(p)| >= 14 && Y.Registered(P.Final(m, acts, keys).s, id)
    ensures var t := Y.SessionOf(P.Final(m, acts, keys).s, id);
            t.n.done && !t.w.dev.wiped ==>
              (AllBound(t.n, keys, Whole(t.w, p)) <==> D.StopsAt(D.Encode(p), |p.elems|))
  {
    P.InitialHolds(m, keys);
    assert Begins(Y.SessionOf(m.s, id), keys);
    hide G.PhaseInv, P.Acts, Y.SessionOf, Runs, After, P.Initial, Begins, AllBound, D.StopsAt, D.StoredAs,
         D.ValidPage, D.Encode;
    P.ActsProject(m, acts, keys, id);
    WholeDeviceExactly(Y.SessionOf(m.s, id), P.StepsFor(m, acts, keys, id), keys, p);
  }
}
