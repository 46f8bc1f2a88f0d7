/** How far the configuration of a device has come: which states are complete on it, and
    which items of the state at work are. */
module Progress {
  import opened Bits
  import opened Odometer
  import opened Mesh
  import opened Slot
  import opened Session
  import SessionSound

  /* What an acknowledged command leaves on the device */

  predicate InEffect(d: Device, cmd: Command) {
    match cmd
    case AddKey(key) => key in d.keys
    case Bind(e, model, key) => (e, model, key) in d.bound
    case SetPub(e, model, _, _, _, _, _, _) => (e, model) in d.pubs && d.pubs[(e, model)] == cmd
    case _ => true
  }

  /** Acknowledged and in effect; or a publication of a model that reported to support none. */
  predicate Settled(w: World, cmd: Command) {
    || (Got(cmd, Success) in w.log && InEffect(w.dev, cmd))
    || (cmd.SetPub? && Got(cmd, NotInitialized) in w.log)
  }

  function KeyAt(comp: seq<Element>, p: Pos): ModelKey
    requires 0 <= p.e < |comp| && 0 <= p.m < ModelCount(comp[p.e])
  {
    (p.e, ModelAt(comp[p.e], p.m))
  }

  /** A subscription command of the model was answered "insufficient resources". */
  ghost predicate NoRoom(w: World, k: ModelKey) {
    exists addr ::
      Got(SetSub(k.0, k.1, addr), InsufficientResources) in w.log
          || Got(AddSub(k.0, k.1, addr), InsufficientResources) in w.log
  }

  function SetOf(s: seq<int>): set<int> {
    set x | x in s
  }

  /** The model subscribes to exactly the configured addresses, or ran out of room. */
  ghost predicate Subscribed(w: World, k: ModelKey, sublist: seq<int>) {
    NoRoom(w, k) || Subs(w.dev, k) == SetOf(sublist)
  }

  ghost predicate ItemDone(s: int, p: Pos, n: Node, keys: seq<AppKey>, w: World)
    requires Iterates(s) && On(ShapeOf(s, n, keys, w.comp), p)
  {
    if s == ADD_SUB then Subscribed(w, KeyAt(w.comp, p), n.cfg.sublist)
    else
      match ItemAt(s, p, n, keys, w.comp)
      case Cmd(cmd) => Settled(w, cmd)
      case _ => false
  }

  /** State s has nothing left to do on the device. */
  ghost predicate Complete(s: int, n: Node, keys: seq<AppKey>, w: World) {
    if Iterates(s) then
      Guard(s, n) ==> forall p :: On(ShapeOf(s, n, keys, w.comp), p) ==> ItemDone(s, p, n, keys, w)
    else s == SET_CONFIG ==> Diff(n) == 0
  }

  ghost predicate CompleteBelow(s: int, n: Node, keys: seq<AppKey>, w: World) {
    forall t :: ADD_APPKEY <= t < s && t <= SET_CONFIG ==> Complete(t, n, keys, w)
  }

  /** Every feature that was to be set and no longer differs was set with its parameters. */
  ghost predicate FeaturesSet(n: Node, w: World) {
    forall b: nat :: b in w.due && !Bit(Diff(n), b) ==>
      b in w.dev.feats && Some(w.dev.feats[b]) == FeatureArgs(n.cfg, b)
  }

  /* Places */

  /** Before a state: all earlier states are complete.  At an item of an iterating state:
      the items before it are done as well. */
  datatype Place = Nowhere | Before(s: int) | At(st: int, p: Pos)

  predicate LessModel(p: Pos, q: Pos) {
    p.e < q.e || (p.e == q.e && p.m < q.m)
  }

  ghost predicate ItemsBefore(s: int, p: Pos, n: Node, keys: seq<AppKey>, w: World)
    requires Iterates(s) && On(ShapeOf(s, n, keys, w.comp), p)
  {
    var sh := ShapeOf(s, n, keys, w.comp);
    if s == ADD_SUB then
      && (forall q :: On(sh, q) && LessModel(q, p) && KeyAt(w.comp, q) != KeyAt(w.comp, p) ==>
            ItemDone(s, q, n, keys, w))
      && (p.k > 0 ==> PartlySubscribed(w, KeyAt(w.comp, p), n.cfg.sublist, p.k))
    else forall q :: On(sh, q) && Less(q, p) ==> ItemDone(s, q, n, keys, w)
  }

  /** The first k addresses are subscribed to, the next one perhaps, and no other. */
  ghost predicate PartlySubscribed(w: World, k: ModelKey, sublist: seq<int>, i: int)
    requires 0 < i < |sublist|
  {
    NoRoom(w, k) || SetOf(sublist[..i]) <= Subs(w.dev, k) <= SetOf(sublist[..i + 1])
  }

  ghost predicate Good(pl: Place, n: Node, keys: seq<AppKey>, w: World) {
    match pl
    case Nowhere => true
    case Before(s) => CompleteBelow(s, n, keys, w)
    case At(s, p) =>
      && Iterates(s) && Guard(s, n) && CompleteBelow(s, n, keys, w)
      && On(ShapeOf(s, n, keys, w.comp), p) && ItemsBefore(s, p, n, keys, w)
  }

  /** The state a run goes to after Get DCD. */
  function FirstState(err: nat): int {
    var a := AfterDcd(err, GET_DCD);
    if a == TO_NEXT then ADD_APPKEY else a
  }

  /** The place a slot and its node stand for. */
  function PlaceOf(c: Cache, n: Node): Place {
    if c == EMPTY || c.state == PROVISIONED then Before(FirstState(n.err))
    else if c.state >= END then Nowhere
    else if Failed(c) then Before(c.state)
    else if c.next == TO_NEXT then Before(c.state + 1)
    else if c.next != c.state then Before(c.next)
    else if c.state == GET_DCD then Before(FirstState(n.err))
    else if Iterates(c.state) then At(c.state, PosOf(c.state, c.it))
    else Before(c.state)
  }

  /* The order of commands */

  /** A binding is sent only after its key was acknowledged, a publication only after the
      binding of its key to its model was. */
  predicate Justified(log: seq<Entry>, e: Entry) {
    match e
    case Sent(Bind(_, _, key)) => Got(AddKey(key), Success) in log
    case Sent(SetPub(e, model, key, _, _, _, _, _)) => Got(Bind(e, model, key), Success) in log
    case _ => true
  }

  ghost predicate Ordered(log: seq<Entry>) {
    forall i :: 0 <= i < |log| ==> Justified(log[..i], log[i])
  }

  /* How places move */

  /** The log only grows: nothing done is undone by an entry. */
  lemma GoodGrows(pl: Place, n: Node, keys: seq<AppKey>, w: World, w': World)
    requires Good(pl, n, keys, w)
    requires w' == w.(log := w'.log, out := w'.out) && w.log <= w'.log
    ensures Good(pl, n, keys, w')
  {
    forall e | e in w.log
      ensures e in w'.log
    {
      var i :| 0 <= i < |w.log| && w.log[i] == e;
      assert w'.log[i] == e;
    }
    forall s, p | Iterates(s) && On(ShapeOf(s, n, keys, w.comp), p) && ItemDone(s, p, n, keys, w)
      ensures ItemDone(s, p, n, keys, w')
    {
    }
    forall t | ADD_APPKEY <= t <= SET_CONFIG && Complete(t, n, keys, w)
      ensures Complete(t, n, keys, w')
    {
    }
  }

  /** Carrying out the command of an item undoes no item: commands of one state to the
      same model are the same publication, and add to sets otherwise. */
  lemma SettledKept(s: int, p: Pos, t: int, q: Pos, n: Node, keys: seq<AppKey>, w: World, cmd: Command)
    requires Iterates(s) && ItemAt(s, p, n, keys, w.comp) == Cmd(cmd)
    requires ADD_APPKEY <= t < ADD_SUB && On(ShapeOf(t, n, keys, w.comp), q) && ItemDone(t, q, n, keys, w)
    ensures ItemDone(t, q, n, keys, w.(dev := Apply(w.dev, cmd)))
  {
    hide On, ShapeOf;
  }

  lemma AddedAddress(sublist: seq<int>, i: int)
    requires 0 <= i < |sublist|
    ensures SetOf(sublist[..i + 1]) == SetOf(sublist[..i]) + {sublist[i]}
  {
  }

  /** The command of an item, carried out once or more, acknowledged or not, keeps the place. */
  lemma GoodApplies(s: int, p: Pos, n: Node, keys: seq<AppKey>, w: World, cmd: Command)
    requires Good(At(s, p), n, keys, w) && ItemAt(s, p, n, keys, w.comp) == Cmd(cmd)
    ensures Good(At(s, p), n, keys, w.(dev := Apply(w.dev, cmd)))
  {
    var w' := w.(dev := Apply(w.dev, cmd));
    forall t, q | ADD_APPKEY <= t < ADD_SUB && On(ShapeOf(t, n, keys, w.comp), q) && ItemDone(t, q, n, keys, w)
      ensures ItemDone(t, q, n, keys, w')
    {
      SettledKept(s, p, t, q, n, keys, w, cmd);
    }
    forall t | ADD_APPKEY <= t < s && Complete(t, n, keys, w)
      ensures Complete(t, n, keys, w')
    {
    }
    if s == ADD_SUB {
      SubscriptionApplies(p, n, keys, w, cmd);
    }
  }

  lemma SubscriptionApplies(p: Pos, n: Node, keys: seq<AppKey>, w: World, cmd: Command)
    requires On(ShapeOf(ADD_SUB, n, keys, w.comp), p) && ItemsBefore(ADD_SUB, p, n, keys, w)
    requires ItemAt(ADD_SUB, p, n, keys, w.comp) == Cmd(cmd)
    ensures ItemsBefore(ADD_SUB, p, n, keys, w.(dev := Apply(w.dev, cmd)))
    ensures NoRoom(w, KeyAt(w.comp, p)) || Subs(Apply(w.dev, cmd), KeyAt(w.comp, p)) == SetOf(n.cfg.sublist[..p.k + 1])
  {
  }

  /** An acknowledged item is done, and the place moves with the iterators. */
  lemma GoodAdvances(s: int, p: Pos, n: Node, keys: seq<AppKey>, w: World)
    requires Good(At(s, p), n, keys, w) && s != ADD_SUB && ItemDone(s, p, n, keys, w)
    requires WellShaped(ShapeOf(s, n, keys, w.comp))
    ensures var t := Turn(ShapeOf(s, n, keys, w.comp), p);
            Good(if t.done then Before(s + 1) else At(s, t.pos), n, keys, w)
  {
    hide ShapeOf, ItemDone, Turn, On;
    var sh := ShapeOf(s, n, keys, w.comp);
    TurnIsSuccessor(sh, p);
    forall q | On(sh, q) && !Less(p, q)
      ensures ItemDone(s, q, n, keys, w)
    {
      assert Less(q, p) || q == p;
    }
  }

  /** The same for subscriptions, where the model is done once its last address is in. */
  lemma SubscriptionAdvances(p: Pos, n: Node, keys: seq<AppKey>, w: World)
    requires Good(At(ADD_SUB, p), n, keys, w)
    requires WellShaped(ShapeOf(ADD_SUB, n, keys, w.comp))
    requires NoRoom(w, KeyAt(w.comp, p)) || Subs(w.dev, KeyAt(w.comp, p)) == SetOf(n.cfg.sublist[..p.k + 1])
    ensures var t := Turn(ShapeOf(ADD_SUB, n, keys, w.comp), p);
            Good(if t.done then Before(SET_CONFIG) else At(ADD_SUB, t.pos), n, keys, w)
  {
    var sh := ShapeOf(ADD_SUB, n, keys, w.comp);
    var sublist := n.cfg.sublist;
    TurnIsSuccessor(sh, p);
    var t := Turn(sh, p);
    if p.k + 1 < |sublist| {
      assert t == Turned(Pos(p.e, p.m, p.k + 1), false);
      AddedAddress(sublist, p.k + 1);
    } else {
      assert sublist[..p.k + 1] == sublist;
      forall q | On(sh, q) && !Less(p, q)
        ensures ItemDone(ADD_SUB, q, n, keys, w)
      {
        assert LessModel(q, p) || KeyAt(w.comp, q) == KeyAt(w.comp, p);
      }
      if !t.done {
        forall q | On(sh, q) && LessModel(q, t.pos)
          ensures !Less(p, q)
        {
        }
      }
    }
  }

  /** Skipping to the last address of a model without room keeps the place. */
  lemma NoRoomSkips(p: Pos, n: Node, keys: seq<AppKey>, w: World)
    requires Good(At(ADD_SUB, p), n, keys, w) && NoRoom(w, KeyAt(w.comp, p))
    ensures Good(At(ADD_SUB, p.(k := |n.cfg.sublist| - 1)), n, keys, w)
  {
  }

  /** A state whose guard fails is complete; one whose guard holds starts at its origin. */
  lemma GoodEnters(s: int, n: Node, keys: seq<AppKey>, w: World)
    requires Good(Before(s), n, keys, w) && GET_DCD < s <= SET_CONFIG
    requires WellConfigured(n, w.comp, keys)
    ensures !Guard(s, n) ==> Good(Before(s + 1), n, keys, w)
    ensures Guard(s, n) && Iterates(s) ==> Good(At(s, ORIGIN), n, keys, w)
  {
  }

  /** Every command a state sends is justified by the states before it. */
  lemma SendsJustified(s: int, p: Pos, n: Node, keys: seq<AppKey>, w: World, cmd: Command)
    requires Iterates(s) && CompleteBelow(s, n, keys, w) && Guard(s, n) && WellConfigured(n, w.comp, keys)
    requires ItemAt(s, p, n, keys, w.comp) == Cmd(cmd)
    ensures Justified(w.log, Sent(cmd))
  {
    if s == BIND {
      assert Complete(ADD_APPKEY, n, keys, w);
      assert ItemDone(ADD_APPKEY, Pos(0, 0, p.k), n, keys, w);
    } else if s == SET_PUB {
      var aki := n.cfg.pub.value.aki;
      var k :| 0 <= k < |n.cfg.bindings| && n.cfg.bindings[k] == aki;
      var q := Pos(p.e, p.m, k);
      assert On(ShapeOf(BIND, n, keys, w.comp), q);
      assert Complete(BIND, n, keys, w);
      assert ItemDone(BIND, q, n, keys, w);
    }
  }

  lemma OrderedGrows(log: seq<Entry>, e: Entry)
    requires Ordered(log) && Justified(log, e)
    ensures Ordered(log + [e])
  {
    var l := log + [e];
    forall i | 0 <= i < |l|
      ensures Justified(l[..i], l[i])
    {
      assert l[..i] == if i < |log| then log[..i] else log;
    }
  }
}
