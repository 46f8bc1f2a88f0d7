/** A slot together with the node it works on and the remote device: the steps an
    engine pass, a page of composition data and the terminal event of a command make,
    against a device that may lose commands or carry them out after a timeout. */
module Session {
  import opened Bits
  import opened Odometer
  import opened Mesh
  import opened Slot

  /** What a device remembers of a run: commands sent to it and terminal events. */
  datatype Entry = Sent(cmd: Command) | Got(cmd: Command, st: Status)

  type ModelKey = (int, Model)

  /** The configuration a device holds. */
  datatype Device = Device(keys: set<int>, bound: set<(int, Model, int)>, pubs: map<ModelKey, Command>,
                           subs: map<ModelKey, set<int>>, feats: map<nat, seq<int>>, wiped: bool)

  /** The device with the elements the engine stores of its composition data (see
      DcdPage.StoredAs and, for the whole device, WholeDevice), the command whose terminal
      event is due, and the log; due holds the feature bits to be set at the start. */
  datatype World = World(comp: seq<Element>, due: set<nat>, dev: Device, log: seq<Entry>, out: Option<Command>)

  datatype Session = Session(c: Cache, n: Node, w: World)

  datatype Act =
    | Load(id: nat, removing: bool)
    | EnginePass(timeUp: bool, ans: Answer, effect: bool)
    | Page
    | Reply(st: Status, effect: bool, ans: Answer)

  datatype StepOut = StepOut(s: Session, release: Release, ok: bool)

  function Subs(d: Device, k: ModelKey): set<int> {
    if k in d.subs then d.subs[k] else {}
  }

  /** The device carries out a command. */
  function Apply(d: Device, cmd: Command): Device {
    match cmd
    case GetDcd => d
    case AddKey(key) => d.(keys := d.keys + {key})
    case Bind(e, model, key) => d.(bound := d.bound + {(e, model, key)})
    case SetPub(e, model, _, _, _, _, _, _) => d.(pubs := d.pubs[(e, model) := cmd])
    case SetSub(e, model, addr) => d.(subs := d.subs[(e, model) := {addr}])
    case AddSub(e, model, addr) => d.(subs := d.subs[(e, model) := Subs(d, (e, model)) + {addr}])
    case Feature(which, args) => d.(feats := d.feats[which := args])
    case Reset => Device({}, {}, map[], map[], map[], true)
  }

  /** The command due comes to its end, carried out or not. */
  function Settle(w: World, effect: bool): World {
    w.(dev := if effect && w.out.Some? then Apply(w.dev, w.out.value) else w.dev, out := None)
  }

  /** The engine sends a command and gets its answer. */
  function Deliver(w: World, cmd: Option<Command>, ans: Answer): World {
    match cmd
    case None => w
    case Some(x) => w.(log := w.log + [Sent(x)], out := if ans.Accepted? then Some(x) else w.out)
  }

  /** The pass resends because the guard timer expired. */
  predicate GuardFires(c: Cache, timeUp: bool) {
    c.armed && timeUp && Works(c.state)
  }

  function LoadSlot(id: nat, removing: bool): Cache {
    if removing then EMPTY.(node := Some(id), state := END, next := RM) else EMPTY.(node := Some(id))
  }

  predicate Legal(s: Session, act: Act) {
    match act
    case Load(_, removing) => s.c == EMPTY && (removing || (!s.w.dev.wiped && !s.n.done))
    case EnginePass(_, _, _) => s.c.node.Some?
    case Page => s.c.node.Some? && s.w.out == Some(GetDcd)
    case Reply(st, _, _) =>
      s.c.node.Some? && s.w.out.Some? && (st == Success && s.w.out == Some(GetDcd) ==> s.c.dcd == s.w.comp)
  }

  function WhichOf(cmd: Command): nat {
    if cmd.Feature? then cmd.which else 0
  }

  function Step(s: Session, act: Act, keys: seq<AppKey>): StepOut
    requires Legal(s, act)
    requires act.Reply? ==> Works(s.c.state)
  {
    match act
    case Load(id, removing) => StepOut(s.(c := LoadSlot(id, removing)), Kept, true)
    case EnginePass(timeUp, ans, effect) =>
      var o := Pass(s.c, s.n, keys, timeUp, ans);
      var w := if GuardFires(s.c, timeUp) then Settle(s.w, effect) else s.w;
      StepOut(Session(o.c, o.n, Deliver(w, o.cmd, ans)), o.release, o.ok)
    case Page => StepOut(s.(c := OnPage(s.c, s.w.comp)), Kept, true)
    case Reply(st, effect, ans) =>
      var cmd := s.w.out.value;
      var w := Settle(s.w, effect || st == Success);
      var o := Handle(s.c, s.n, keys, WhichOf(cmd), st, ans);
      StepOut(Session(o.c, o.n, Deliver(w.(log := w.log + [Got(cmd, st)]), o.cmd, ans)), Kept, o.ok)
  }

  /* What a node must bring along */

  /** The first binding and the publication key exist, every element stored keeps a model, and
      every feature bit to be set has a command and its parameters. */
  ghost predicate WellConfigured(n: Node, comp: seq<Element>, keys: seq<AppKey>) {
    && n.cfg.addr != 0
    && (|n.cfg.bindings| > 0 ==> Resolvable(keys, n.cfg.bindings[0]))
    && (PubGuard(n.cfg) ==> Resolvable(keys, n.cfg.pub.value.aki))
    && |comp| > 0
    && (forall e :: 0 <= e < |comp| ==> ModelCount(comp[e]) > 0)
    && (forall b: nat :: Bit(Diff(n), b) ==> Settable(b) && FeatureArgs(n.cfg, b).Some?)
  }

  /** The error word of a node: none, or the bit of one state. */
  ghost predicate OneErrorBit(err: nat) {
    err == 0 || exists b: nat :: 1 <= b <= RM && err == Pow2(b)
  }

  /* The modes of a slot in use */

  predicate NoFlags(c: Cache) {
    !c.armed && !c.wait && !c.oom && !c.ever
  }

  /** Just loaded by __caches_load. */
  predicate Fresh(c: Cache) {
    c.node.Some? && (c == LoadSlot(c.node.value, false) || c == LoadSlot(c.node.value, true))
  }

  /** State s finds a command at the iterators. */
  predicate Ready(s: int, it: Pos, dcd: seq<Element>, n: Node, keys: seq<AppKey>) {
    && Works(s)
    && CommandFor(s, it, dcd, n, keys).Cmd?
    && (s == ADD_APPKEY ==> it.m == 0 && it.k == 0)
    && (!Iterates(s) ==> it == ORIGIN)
  }

  /** A command of the state is awaited or to be sent again. */
  predicate Active(c: Cache, n: Node, keys: seq<AppKey>, comp: seq<Element>) {
    && c.node.Some? && Works(c.state) && c.next == c.state
    && !Failed(c)
    && c.wait != c.oom
    && (c.armed ==> c.wait)
    && (c.ever ==> c.remaining <= RetryLimit(c.state))
    && Ready(c.state, c.it, c.dcd, n, keys)
    && (ADD_APPKEY <= c.state <= SET_CONFIG ==> c.dcd == comp && Guard(c.state, n))
  }

  /** The work of the state is done and the next state to be entered. */
  predicate Over(c: Cache, comp: seq<Element>) {
    && c.node.Some? && Works(c.state)
    && !Failed(c) && NoFlags(c) && c.it == ORIGIN
    && (c.next == TO_NEXT || (c.state == GET_DCD && ADD_APPKEY <= c.next <= SET_CONFIG))
    && (c.state != RM ==> c.dcd == comp)
  }

  /** An error was recorded under the bit of the state and the end is to be entered. */
  predicate Faulted(c: Cache) {
    && c.node.Some? && Works(c.state)
    && NoFlags(c) && c.next == FailTo(c.state)
    && ((c.bgcall == Pow2(c.state) && c.bgevt == 0) || (c.bgcall == 0 && c.bgevt == Pow2(c.state)))
  }

  predicate InUse(c: Cache, n: Node, keys: seq<AppKey>, comp: seq<Element>) {
    Fresh(c) || Active(c, n, keys, comp) || Over(c, comp) || Faulted(c)
  }

  /** The terminal event the slot waits for is the one of the command it would send again. */
  predicate Matched(s: Session, keys: seq<AppKey>) {
    && (s.c.wait <==> s.w.out.Some?)
    && (s.w.out.Some? ==> CommandFor(s.c.state, s.c.it, s.c.dcd, s.n, keys) == Cmd(s.w.out.value))
  }

  /** The invariant of the protocol machinery. */
  ghost predicate Sound(s: Session, keys: seq<AppKey>) {
    && (s.c == EMPTY || InUse(s.c, s.n, keys, s.w.comp))
    && Matched(s, keys)
    && WellConfigured(s.n, s.w.comp, keys)
    && OneErrorBit(s.n.err)
  }

  /** A subscription status "insufficient resources" for the last model, after a retry. */
  predicate StrandedRetry(s: Session, st: Status, keys: seq<AppKey>) {
    && st == InsufficientResources && s.c.state == ADD_SUB && s.c.ever
    && var sh := ShapeOf(ADD_SUB, s.n, keys, s.c.dcd);
    && On(sh, s.c.it) && TurnModel(sh, s.c.it).done
  }

  /** The environment leaves out the two answers the callbacks do not recover from. */
  predicate Benign(s: Session, act: Act, keys: seq<AppKey>) {
    match act
    case EnginePass(timeUp, ans, _) => !(GuardFires(s.c, timeUp) && ans.OutOfMemory?)
    case Reply(st, _, ans) => !(StrandedRetry(s, st, keys) && !ans.Refused?)
    case _ => true
  }
}
