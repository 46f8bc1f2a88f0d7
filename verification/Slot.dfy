/** One slot of the engine (config_cache_t) and the callbacks of its states, as
    functions from the slot before to the slot after.  The callbacks of the
    states share one form; where they differ a function asks for the state. */
module Slot {
  import opened Bits
  import opened Odometer
  import opened Mesh

  const TO_NEXT := -1
  const PROVISIONED := 1
  const GET_DCD := 2
  const ADD_APPKEY := 3
  const BIND := 4
  const SET_PUB := 5
  const ADD_SUB := 6
  const SET_CONFIG := 7
  const END := 8
  const RM := 9
  const RM_END := 10

  /** The slot: the flags byte as three booleans, armed for a guard timer that is set. */
  datatype Cache = Cache(node: Option<nat>, state: nat, next: int, armed: bool, wait: bool, oom: bool, ever: bool,
                         remaining: nat, bgcall: nat, bgevt: nat, dcd: seq<Element>, handle: nat, it: Pos)

  /** A slot that was reset. */
  const EMPTY := Cache(None, PROVISIONED, GET_DCD, false, false, false, false, 0, 0, 0, [], 0, ORIGIN)

  /** What the NCP answers at once to a command. */
  datatype Answer = Accepted(handle: nat) | OutOfMemory | Refused

  /** How the terminal event of a command reports its end. */
  datatype Status = Success | Timeout | NotInitialized | InsufficientResources | OtherError

  datatype Asr = Suc | Oom | Bgapi | NotFound

  datatype Reason = OnTimeout | OnOom | OnGuardTimer

  /** The outcome of a callback: the slot and node after it, its return value, the
      command it sent, and whether every ASSERT on its way held. */
  datatype Out = Out(c: Cache, n: Node, ret: Asr, cmd: Option<Command>, ok: bool)

  function RetryLimit(s: int): nat {
    if s == RM then 3 else 5
  }

  /** The states whose table entry has a retry callback. */
  predicate Works(s: int) {
    GET_DCD <= s <= SET_CONFIG || s == RM
  }

  /** The states that walk the iterators. */
  predicate Iterates(s: int) {
    ADD_APPKEY <= s <= ADD_SUB
  }

  predicate PubGuard(cfg: NodeConfig) {
    cfg.pub.Some? && cfg.pub.value.aki in cfg.bindings
  }

  predicate Guard(s: int, n: Node) {
    if s == GET_DCD || s == RM then n.cfg.addr != 0
    else if s == ADD_APPKEY || s == BIND then |n.cfg.bindings| != 0
    else if s == SET_PUB then PubGuard(n.cfg)
    else if s == ADD_SUB then |n.cfg.sublist| != 0
    else Diff(n) != 0
  }

  /* The work of a state */

  function KeyRow(n: Node, keys: seq<AppKey>): seq<bool> {
    seq(|n.cfg.bindings|, i requires 0 <= i < |n.cfg.bindings| => i == 0 || Resolvable(keys, n.cfg.bindings[i]))
  }

  predicate Visited(s: int, el: Element, m: int)
    requires 0 <= m < ModelCount(el)
  {
    || m == 0
    || s == BIND
    || (s == SET_PUB && PubSupported(ModelAt(el, m).mid))
    || (s == ADD_SUB && SubSupported(ModelAt(el, m).mid))
  }

  function ModelRow(s: int, el: Element): seq<bool> {
    seq(ModelCount(el), m requires 0 <= m < ModelCount(el) => Visited(s, el, m))
  }

  function ModelRows(s: int, dcd: seq<Element>): seq<seq<bool>> {
    seq(|dcd|, e requires 0 <= e < |dcd| => ModelRow(s, dcd[e]))
  }

  /** What an iterating state walks over. */
  function ShapeOf(s: int, n: Node, keys: seq<AppKey>, dcd: seq<Element>): Shape {
    if s == ADD_APPKEY then Shape([[true]], KeyRow(n, keys))
    else if s == BIND then Shape(ModelRows(s, dcd), KeyRow(n, keys))
    else if s == SET_PUB then Shape(ModelRows(s, dcd), [true])
    else Shape(ModelRows(s, dcd), seq(|n.cfg.sublist|, _ => true))
  }

  /** The position the iterators stand for: Add Appkey counts keys in the first one. */
  function PosOf(s: int, it: Pos): Pos {
    if s == ADD_APPKEY then Pos(0, 0, it.e) else it
  }

  function ItOf(s: int, p: Pos): Pos {
    if s == ADD_APPKEY then Pos(p.k, 0, 0) else p
  }

  /** What a send callback finds to send: a command, nothing (asr_notfnd), or a failed
      ASSERT or an index outside its array. */
  datatype Lookup = Cmd(cmd: Command) | NoItem | Broken

  function ItemAt(s: int, p: Pos, n: Node, keys: seq<AppKey>, dcd: seq<Element>): Lookup
    requires Iterates(s)
  {
    if !On(ShapeOf(s, n, keys, dcd), p) then Broken
    else if s == ADD_APPKEY then
      match KeyId(keys, n.cfg.bindings[p.k])
      case None => Broken
      case Some(id) => Cmd(AddKey(id))
    else
      var model := ModelAt(dcd[p.e], p.m);
      if s == BIND then
        match KeyId(keys, n.cfg.bindings[p.k])
        case None => Broken
        case Some(id) => Cmd(Bind(p.e, model, id))
      else if s == SET_PUB then
        if n.cfg.pub.None? then Broken
        else
          match KeyId(keys, n.cfg.pub.value.aki)
          case None => Broken
          case Some(id) => Cmd(PubCommand(p.e, model, id, n.cfg.pub.value))
      else if p.k == 0 then Cmd(SetSub(p.e, model, n.cfg.sublist[0]))
      else Cmd(AddSub(p.e, model, n.cfg.sublist[p.k]))
  }

  function PubCommand(e: int, model: Model, key: int, p: Publication): Command {
    SetPub(e, model, key, p.addr, p.ttl, p.period, p.cnt, if p.intv != 0 then p.intv else 50)
  }

  function NextFeature(n: Node): Lookup {
    if Diff(n) == 0 then NoItem
    else
      var w := TrailingZeros(Diff(n));
      if !Settable(w) then NoItem
      else
        match FeatureArgs(n.cfg, w)
        case None => Broken
        case Some(args) => Cmd(Feature(w, args))
  }

  function CommandFor(s: int, it: Pos, dcd: seq<Element>, n: Node, keys: seq<AppKey>): Lookup {
    if s == GET_DCD then Cmd(GetDcd)
    else if s == RM then Cmd(Reset)
    else if Iterates(s) then ItemAt(s, PosOf(s, it), n, keys, dcd)
    else if s == SET_CONFIG then NextFeature(n)
    else Broken
  }

  /* Callbacks */

  /** err_set with clr_cache_ctl: the bit recorded is that of the slot's state. */
  function Fail(c: Cache, call: bool, to: int): Cache
  {
    var c' := if call then c.(bgcall := SetBit(c.bgcall, c.state)) else c.(bgevt := SetBit(c.bgevt, c.state));
    c'.(armed := false, wait := false, oom := false, ever := false, next := to)
  }

  function FailTo(s: int): int {
    if s == RM then RM_END else END
  }

  /** The send callback of state s; on entry s is not yet the state of the slot. */
  function Send(s: int, c: Cache, n: Node, keys: seq<AppKey>, ans: Answer): (o: Out)
    ensures o.c.state == c.state && o.c.node == c.node
    ensures o.n == n
  {
    match CommandFor(s, c.it, c.dcd, n, keys)
    case Broken => Out(c, n, Suc, None, false)
    case NoItem => Out(c, n, NotFound, None, true)
    case Cmd(cmd) =>
      match ans
      case Accepted(h) => Out(c.(wait := true, handle := h, armed := true), n, Suc, Some(cmd), true)
      case OutOfMemory => Out(c.(oom := true), n, Oom, Some(cmd), true)
      case Refused => Out(Fail(c, true, FailTo(s)), n, Bgapi, Some(cmd), true)
  }

  function Retry(c: Cache, n: Node, keys: seq<AppKey>, reason: Reason, ans: Answer): (o: Out)
    ensures o.c.state == c.state && o.c.node == c.node
    ensures o.n == n
  {
    var r := Send(c.state, c, n, keys, ans);
    if !r.ok || r.ret != Suc then r
    else
      match reason
      case OnTimeout =>
        if !c.ever || c.remaining == 0 then r.(ok := false) else r.(c := r.c.(remaining := c.remaining - 1))
      case OnOom => if !r.c.oom then r.(ok := false) else r.(c := r.c.(oom := false))
      case OnGuardTimer => r.(c := r.c.(armed := false))
  }

  /** The nodes's error word as the end states record it: 31 bits of both error maps. */
  function ErrWord(c: Cache): nat {
    Or(c.bgevt, c.bgcall) % 0x8000_0000
  }

  predicate Failed(c: Cache) {
    c.bgcall != 0 || c.bgevt != 0
  }

  function EndNode(c: Cache, n: Node, done: bool): Node {
    if Failed(c) then n.(err := ErrWord(c)) else n.(err := 0, done := done)
  }

  /** The entry loop of to_next_state from state s on.  The list of states runs in the
      order of their numbers. */
  function Enter(s: int, c: Cache, n: Node, keys: seq<AppKey>, ans: Answer): Out
    requires GET_DCD <= s <= RM_END
    decreases RM_END - s
  {
    if s == END then Out(c.(state := END, next := END), EndNode(c, n, true), Suc, None, true)
    else if s == RM_END then Out(c.(state := RM_END, next := RM_END), EndNode(c, n, false), Suc, None, true)
    else if !Guard(s, n) then Enter(s + 1, c, n, keys, ans)
    else
      var o := Send(s, c, n, keys, ans);
      if o.ret == Bgapi then Out(o.c.(state := END, next := END), EndNode(o.c, n, true), Suc, o.cmd, true)
      else o.(c := o.c.(state := s, next := s))
  }

  function ToNextState(c: Cache, n: Node, keys: seq<AppKey>, ans: Answer): Out
    requires c.next == TO_NEXT ==> GET_DCD <= c.state < RM_END
    requires c.next != TO_NEXT ==> GET_DCD <= c.next <= RM_END
  {
    Enter(if c.next == TO_NEXT then c.state + 1 else c.next, c, n, keys, ans)
  }

  /** What one engine pass does with the slot: look for an expired guard timer or a
      pending out-of-memory, then move on when the state is over. */
  function Recover(c: Cache, n: Node, keys: seq<AppKey>, timeUp: bool, ans: Answer): (o: Out)
    ensures o.c.state == c.state && o.c.node == c.node
    ensures o.n == n
  {
    if c.armed && timeUp && Works(c.state) then Retry(c, n, keys, OnGuardTimer, ans)
    else if c.oom && Works(c.state) then
      var r := Retry(c, n, keys, OnOom, ans);
      r.(ok := r.ok && !c.wait)
    else Out(c, n, Suc, None, true)
  }

  /** The slot may be handed to ToNextState. */
  predicate Movable(c: Cache) {
    && (c.next == TO_NEXT ==> GET_DCD <= c.state < RM_END)
    && (c.next != TO_NEXT ==> GET_DCD <= c.next <= RM_END)
  }

  predicate Ended(c: Cache) {
    c.state == END || c.state == RM_END
  }

  /** A slot still holds its node after the pass, or was reset: freed says whether with an error. */
  datatype Release = Kept | Freed(failed: bool)

  datatype PassOut = PassOut(c: Cache, n: Node, cmd: Option<Command>, release: Release, ok: bool)

  function Pass(c: Cache, n: Node, keys: seq<AppKey>, timeUp: bool, ans: Answer): PassOut
  {
    var r := Recover(c, n, keys, timeUp, ans);
    if !r.ok || r.c.wait || r.c.state == r.c.next then PassOut(r.c, r.n, r.cmd, Kept, r.ok)
    else if !Movable(r.c) then PassOut(r.c, r.n, r.cmd, Kept, false)
    else
      var o := ToNextState(r.c, r.n, keys, ans);
      var cmd := if r.cmd.Some? then r.cmd else o.cmd;
      if o.ok && Ended(o.c) then PassOut(EMPTY, o.n, cmd, Freed(Failed(o.c)), true)
      else PassOut(o.c, o.n, cmd, Kept, o.ok)
  }

  /** The highest error bit among the states from Add Appkey up to s, or s' when there is none. */
  function HighestBit(err: nat, s: int, none: int): int
    requires ADD_APPKEY - 1 <= s <= SET_CONFIG
    decreases s
  {
    if s < ADD_APPKEY then none
    else if Bit(err, s) then s
    else HighestBit(err, s - 1, none)
  }

  /** The state Get DCD continues with. */
  function AfterDcd(err: nat, next: int): int {
    if Pow2(GET_DCD) < err < Pow2(END) then HighestBit(err, SET_CONFIG, next) else TO_NEXT
  }

  /** The next work item of an iterating state, or the end of the state. */
  function Advance(c: Cache, n: Node, keys: seq<AppKey>, ans: Answer): (o: Out)
    requires Iterates(c.state)
    ensures o.c.state == c.state && o.c.node == c.node
    ensures o.n == n
  {
    var sh := ShapeOf(c.state, n, keys, c.dcd);
    var p := PosOf(c.state, c.it);
    if !On(sh, p) then Out(c, n, Suc, None, false)
    else
      var t := Turn(sh, p);
      var c' := c.(it := ItOf(c.state, t.pos));
      if t.done then Out(c'.(next := TO_NEXT), n, Suc, None, true)
      else Send(c.state, c', n, keys, ans)
  }

  /** A success report, after the retry flags were cleared. */
  function OnSuccess(c: Cache, n: Node, keys: seq<AppKey>, which: nat, ans: Answer): (o: Out)
    requires Works(c.state)
    ensures o.c.state == c.state && o.c.node == c.node
    ensures o.n == if c.state == SET_CONFIG then FeatureSet(n, which) else n
  {
    if c.state == GET_DCD then Out(c.(next := AfterDcd(n.err, c.next)), n, Suc, None, true)
    else if c.state == RM then Out(c.(next := TO_NEXT), n, Suc, None, true)
    else if c.state == SET_CONFIG then
      var n' := FeatureSet(n, which);
      if Diff(n') == 0 then Out(c.(next := TO_NEXT), n', Suc, None, true)
      else
        var r := Send(SET_CONFIG, c, n', keys, ans);
        if r.ret == NotFound then Out(c.(next := TO_NEXT), n', Suc, None, true) else r
    else Advance(c, n, keys, ans)
  }

  /** A timeout report: grant the retries the first time, give up when none is left. */
  function OnTimeoutReport(c: Cache): Cache
  {
    if !c.ever then c.(ever := true, remaining := RetryLimit(c.state))
    else if c.remaining == 0 then
      if c.state == RM then c.(ever := false, next := TO_NEXT)
      else Fail(c.(ever := false), false, END)
    else c
  }

  /** The in-progress callback on the terminal event of a command. */
  function InProgress(c: Cache, n: Node, keys: seq<AppKey>, which: nat, st: Status, ans: Answer): (o: Out)
    requires Works(c.state)
    ensures o.c.state == c.state && o.c.node == c.node
    ensures o.n == if st == Success && c.state == SET_CONFIG then FeatureSet(n, which) else n
  {
    var c1 := c.(armed := false, wait := false);
    var clear := c1.(ever := false, remaining := 0);
    if st == Success || (st == NotInitialized && c.state == SET_PUB) then OnSuccess(clear, n, keys, which, ans)
    else if st == Timeout then Out(OnTimeoutReport(c1), n, Suc, None, true)
    else if st == InsufficientResources && c.state == ADD_SUB then
      Advance(c1.(it := c1.it.(k := |n.cfg.sublist| - 1)), n, keys, ans)
    else Out(Fail(c1, false, FailTo(c.state)), n, Suc, None, true)
  }

  /** dev_config_hdr once the slot is found: the in-progress callback, then the resend
      a timeout asks for. */
  function Handle(c: Cache, n: Node, keys: seq<AppKey>, which: nat, st: Status, ans: Answer): (o: Out)
    requires Works(c.state)
    ensures o.c.state == c.state && o.c.node == c.node
    ensures o.n == if c.wait && st == Success && c.state == SET_CONFIG then FeatureSet(n, which) else n
  {
    var r := if c.wait then InProgress(c, n, keys, which, st, ans) else Out(c, n, Suc, None, true);
    if r.ok && r.ret == Suc && !r.c.wait && r.c.ever then Retry(r.c, r.n, keys, OnTimeout, ans) else r
  }

  /** A page of composition data for a slot that waits: the in-progress callback of any state
      disarms the guard timer, that of Get DCD alone stores the page, and the response is still
      awaited. */
  function OnPage(c: Cache, dcd: seq<Element>): Cache {
    if !c.wait || !Works(c.state) then c
    else if c.state == GET_DCD then c.(armed := false, dcd := dcd)
    else c.(armed := false)
  }
}
