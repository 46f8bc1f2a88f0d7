/** The engine with all its nodes and their devices: any interleaving of loading, passes
    over single slots, events and newly provisioned nodes.  Every such run is, for each
    node, a run of its session, so what holds for sessions holds for all nodes. */
module System {
  import opened Bits
  import opened Mesh
  import opened Slot
  import opened Session
  import opened SessionSound
  import opened Engine

  /** due: the handles of the commands the NCP will report on, with the node each was for;
      finished: the nodes released without an error, in order. */
  datatype Sys = Sys(e: Eng, worlds: map<nat, World>, due: map<nat, nat>, finished: seq<nat>)

  datatype Move =
    | LoadOne(removing: bool)
    | Visit(i: nat, timeUp: bool, ans: Answer, effect: bool)
    | PageEvent(h: nat)
    | EndEvent(h: nat, st: Status, effect: bool, ans: Answer)
    | Join(id: nat)

  datatype SysOut = SysOut(s: Sys, ok: bool)

  /** The slot that holds the node, or a reset one. */
  function CacheOf(slots: seq<Cache>, id: nat): Cache {
    if slots == [] then EMPTY
    else if slots[0].node == Some(id) then slots[0]
    else CacheOf(slots[1..], id)
  }

  function SessionOf(s: Sys, id: nat): Session
    requires id in s.e.nodes && id in s.worlds
  {
    Session(CacheOf(s.e.slots, id), s.e.nodes[id], s.worlds[id])
  }

  predicate Registered(s: Sys, id: nat) {
    id in s.e.nodes && id in s.worlds
  }

  function NodeAt(s: Sys, i: nat): nat
    requires Occupied(s.e, i)
  {
    s.e.slots[i].node.value
  }

  /** The handle of a newly accepted command is no slot's. */
  predicate NewHandle(e: Eng, ans: Answer) {
    ans.Accepted? ==> ans.handle != 0 && forall i :: 0 <= i < |e.slots| ==> e.slots[i].handle != ans.handle
  }

  /* Where the nodes are */

  function Held(slots: seq<Cache>): multiset<nat> {
    if slots == [] then multiset{} else NodeSet(slots[0]) + Held(slots[1..])
  }

  function NodeSet(c: Cache): multiset<nat> {
    match c.node case None => multiset{} case Some(id) => multiset{id}
  }

  /** Every node handed to the engine, with the number of places it is in. */
  function Places(s: Sys): multiset<nat> {
    multiset(s.e.config) + multiset(s.e.rm) + Held(s.e.slots) + multiset(s.e.fail) + multiset(s.finished)
  }

  predicate Possible(s: Sys, m: Move) {
    match m
    case LoadOne(removing) => CanTake(s.e, removing) && Registered(s, Queue(s.e, removing)[0])
    case Visit(i, _, ans, _) =>
      Bit(s.e.used, i) && Occupied(s.e, i) && Registered(s, NodeAt(s, i)) && NewHandle(s.e, ans)
    case PageEvent(h) =>
      h in s.due && Registered(s, s.due[h]) && s.worlds[s.due[h]].out == Some(GetDcd)
    case EndEvent(h, st, effect, ans) =>
      h in s.due && Registered(s, s.due[h]) && NewHandle(s.e, ans)
      && Legal(SessionOf(s, s.due[h]), Reply(st, effect, ans)) && Works(SessionOf(s, s.due[h]).c.state)
    case Join(id) =>
      Registered(s, id) && Places(s)[id] == 0 && !s.e.nodes[id].done && !s.worlds[id].dev.wiped
  }

  /** The session step a move is for its node. */
  function ActOf(s: Sys, m: Move): Act
    requires Possible(s, m) && !m.Join?
  {
    match m
    case LoadOne(removing) => Load(Queue(s.e, removing)[0], removing)
    case Visit(_, timeUp, ans, effect) => EnginePass(timeUp, ans, effect)
    case PageEvent(_) => Page
    case EndEvent(_, st, effect, ans) => Reply(st, effect, ans)
  }

  function NodeOf(s: Sys, m: Move): nat
    requires Possible(s, m)
  {
    match m
    case LoadOne(removing) => Queue(s.e, removing)[0]
    case Visit(i, _, _, _) => NodeAt(s, i)
    case PageEvent(h) => s.due[h]
    case EndEvent(h, _, _, _) => s.due[h]
    case Join(id) => id
  }

  function Without(due: map<nat, nat>, h: nat): map<nat, nat> {
    map k | k in due && k != h :: due[k]
  }

  function WithSent(due: map<nat, nat>, cmd: Option<Command>, ans: Answer, id: nat): map<nat, nat> {
    if cmd.Some? && ans.Accepted? then due[ans.handle := id] else due
  }

  function VisitSlot(s: Sys, i: nat, timeUp: bool, ans: Answer, effect: bool, keys: seq<AppKey>): SysOut
    requires Occupied(s.e, i) && Registered(s, NodeAt(s, i))
  {
    var id := NodeAt(s, i);
    var c := s.e.slots[i];
    var o := PassSlot(s.e, i, keys, timeUp, ans);
    var w := if GuardFires(c, timeUp) then Settle(s.worlds[id], effect) else s.worlds[id];
    var due := if GuardFires(c, timeUp) then Without(s.due, c.handle) else s.due;
    SysOut(Sys(o.e, s.worlds[id := Deliver(w, o.cmd, ans)], WithSent(due, o.cmd, ans, id),
               if o.release == Freed(false) then s.finished + [id] else s.finished), o.ok)
  }

  /** dev_config_hdr on the terminal event of the command with handle h: it goes to the slot
      the handle search finds, and all is well only if that slot is the node's. */
  function TakeEnd(s: Sys, h: nat, st: Status, effect: bool, ans: Answer, keys: seq<AppKey>): SysOut
    requires h in s.due && Registered(s, s.due[h]) && s.worlds[s.due[h]].out.Some?
    requires Within(s.e.used, |s.e.slots|)
  {
    var id := s.due[h];
    var slot := CacheFromHandle(s.e, s.e.used, h);
    if slot.None? || s.e.slots[slot.value].node != Some(id) || !Works(s.e.slots[slot.value].state) then SysOut(s, false)
    else
      var i := slot.value;
      var cmd := s.worlds[id].out.value;
      var w := Settle(s.worlds[id], effect || st == Success);
      var o := Handle(s.e.slots[i], s.e.nodes[id], keys, WhichOf(cmd), st, ans);
      var e := s.e.(slots := s.e.slots[i := o.c], nodes := s.e.nodes[id := o.n]);
      SysOut(Sys(e, s.worlds[id := Deliver(w.(log := w.log + [Got(cmd, st)]), o.cmd, ans)],
                 WithSent(Without(s.due, h), o.cmd, ans, id), s.finished), o.ok)
  }

  function TakePage(s: Sys, h: nat): SysOut
    requires h in s.due && Registered(s, s.due[h])
    requires Within(s.e.used, |s.e.slots|)
  {
    var slot := CacheFromHandle(s.e, s.e.used, h);
    if slot.None? || s.e.slots[slot.value].node != Some(s.due[h]) then SysOut(s, false)
    else
      var i := slot.value;
      SysOut(s.(e := s.e.(slots := s.e.slots[i := OnPage(s.e.slots[i], s.worlds[s.due[h]].comp)])), true)
  }

  function Next(s: Sys, m: Move, keys: seq<AppKey>): SysOut
    requires Possible(s, m) && Within(s.e.used, |s.e.slots|)
  {
    match m
    case LoadOne(removing) => SysOut(s.(e := Take(s.e, removing)), true)
    case Visit(i, timeUp, ans, effect) => VisitSlot(s, i, timeUp, ans, effect, keys)
    case PageEvent(h) => TakePage(s, h)
    case EndEvent(h, st, effect, ans) => TakeEnd(s, h, st, effect, ans, keys)
    case Join(id) => SysOut(s.(e := s.e.(config := s.e.config + [id])), true)
  }

  /* The invariants */

  /** No node is in two places. */
  ghost predicate Once(s: Sys) {
    forall id :: Places(s)[id] <= 1
  }

  ghost predicate AllRegistered(s: Sys) {
    forall id :: id in Places(s) ==> Registered(s, id)
  }

  /** Slot i awaits a response that is due. */
  predicate Expects(s: Sys, i: nat) {
    i < |s.e.slots| && s.e.slots[i].node.Some? && s.e.slots[i].wait
    && s.e.slots[i].handle in s.due && Some(s.due[s.e.slots[i].handle]) == s.e.slots[i].node
  }

  /** Handles lead to slots: the waiting slots are exactly those with a response due, under
      their own handle, and no two slots share a handle. */
  ghost predicate Routed(s: Sys) {
    && (forall i :: 0 <= i < |s.e.slots| && s.e.slots[i].wait ==> Expects(s, i))
    && (forall h :: h in s.due ==> h != 0 && exists i: nat :: Expects(s, i) && s.e.slots[i].handle == h)
    && (forall i, j :: 0 <= i < j < |s.e.slots| && s.e.slots[i].handle != 0 ==>
          s.e.slots[i].handle != s.e.slots[j].handle)
  }

  /** Waiting nodes may be loaded. */
  ghost predicate Loadable(s: Sys) {
    forall id :: id in s.e.config && Registered(s, id) ==> !s.e.nodes[id].done && !s.worlds[id].dev.wiped
  }

  ghost predicate AllSound(s: Sys, keys: seq<AppKey>) {
    forall id :: Registered(s, id) ==> Sound(SessionOf(s, id), keys)
  }

  ghost predicate Inv(s: Sys, keys: seq<AppKey>) {
    Tracked(s.e) && Known(s.e) && Once(s) && AllRegistered(s) && Routed(s) && Loadable(s) && AllSound(s, keys)
  }

  /** The environment gives none of the answers the callbacks do not recover from. */
  predicate Tame(s: Sys, m: Move, keys: seq<AppKey>)
    requires Possible(s, m)
  {
    m.Join? || (Registered(s, NodeOf(s, m)) && Benign(SessionOf(s, NodeOf(s, m)), ActOf(s, m), keys))
  }

  /* Slots and nodes */

  lemma {:induction false} HeldOne(slots: seq<Cache>, i: nat)
    requires i < |slots| && slots[i].node.Some?
    ensures Held(slots)[slots[i].node.value] >= 1
  {
    if i > 0 {
      HeldOne(slots[1..], i - 1);
    }
  }

  lemma {:induction false} HeldTwo(slots: seq<Cache>, i: nat, j: nat)
    requires i < j < |slots| && slots[i].node.Some? && slots[i].node == slots[j].node
    ensures Held(slots)[slots[i].node.value] >= 2
  {
    if i > 0 {
      HeldTwo(slots[1..], i - 1, j - 1);
    } else {
      HeldOne(slots[1..], j - 1);
    }
  }

  /** Writing one slot changes the nodes held by the difference. */
  lemma {:induction false} HeldUpdate(slots: seq<Cache>, i: nat, c: Cache, id: nat)
    requires i < |slots|
    ensures Held(slots[i := c])[id] + NodeSet(slots[i])[id] == Held(slots)[id] + NodeSet(c)[id]
  {
    hide NodeSet;
    if i > 0 {
      HeldUpdate(slots[1..], i - 1, c, id);
      assert slots[i := c][1..] == slots[1..][i - 1 := c];
    } else {
      assert slots[i := c][1..] == slots[1..];
    }
  }

  /** No node is in two slots. */
  ghost predicate Apart(slots: seq<Cache>) {
    forall i, j :: 0 <= i < j < |slots| && slots[i].node.Some? ==> slots[i].node != slots[j].node
  }

  lemma OnceApart(s: Sys)
    requires Once(s)
    ensures Apart(s.e.slots)
  {
    forall i, j | 0 <= i < j < |s.e.slots| && s.e.slots[i].node.Some?
      ensures s.e.slots[i].node != s.e.slots[j].node
    {
      assert Places(s)[s.e.slots[i].node.value] <= 1;
      if s.e.slots[i].node == s.e.slots[j].node {
        HeldTwo(s.e.slots, i, j);
      }
    }
  }

  lemma {:induction false} CacheOfSlot(slots: seq<Cache>, i: nat, id: nat)
    requires i < |slots| && slots[i].node == Some(id) && Apart(slots)
    ensures CacheOf(slots, id) == slots[i]
  {
    if i > 0 {
      assert slots[0].node != slots[i].node;
      assert Apart(slots[1..]) by {
        forall a, b | 0 <= a < b < |slots[1..]| && slots[1..][a].node.Some?
          ensures slots[1..][a].node != slots[1..][b].node
        {
          assert slots[a + 1].node != slots[b + 1].node;
        }
      }
      CacheOfSlot(slots[1..], i - 1, id);
    }
  }

  lemma {:induction false} CacheOfNone(slots: seq<Cache>, id: nat)
    requires forall i :: 0 <= i < |slots| ==> slots[i].node != Some(id)
    ensures CacheOf(slots, id) == EMPTY
  {
    if slots != [] {
      forall i | 0 <= i < |slots[1..]|
        ensures slots[1..][i].node != Some(id)
      {
        assert slots[i + 1].node != Some(id);
      }
      CacheOfNone(slots[1..], id);
    }
  }

  /** Writing slot i changes the session of the node it holds and of no other. */
  lemma {:induction false} CacheOfOthers(slots: seq<Cache>, i: nat, c: Cache, id: nat)
    requires i < |slots| && slots[i].node != Some(id) && c.node != Some(id)
    ensures CacheOf(slots[i := c], id) == CacheOf(slots, id)
  {
    if i > 0 {
      CacheOfOthers(slots[1..], i - 1, c, id);
      assert slots[i := c][1..] == slots[1..][i - 1 := c];
    } else {
      assert slots[i := c][1..] == slots[1..];
    }
  }

  /* Conservation */

  lemma TakePlaces(s: Sys, removing: bool, id: nat)
    requires CanTake(s.e, removing) && Tracked(s.e)
    ensures Places(s.(e := Take(s.e, removing)))[id] == Places(s)[id]
  {
    var i := LowestZero(s.e.used);
    var q := Queue(s.e, removing);
    assert q == [q[0]] + q[1..];
    assert multiset(q)[id] == multiset{q[0]}[id] + multiset(q[1..])[id];
    HeldUpdate(s.e.slots, i, Started(s.e.slots[i], q[0], removing), id);
  }

  /** A pass moves a node at most from its slot to the fail list or to the finished ones. */
  lemma VisitPlaces(s: Sys, i: nat, timeUp: bool, ans: Answer, effect: bool, keys: seq<AppKey>, id: nat)
    requires Occupied(s.e, i) && Registered(s, NodeAt(s, i))
    ensures Places(VisitSlot(s, i, timeUp, ans, effect, keys).s)[id] == Places(s)[id]
  {
    var c := s.e.slots[i];
    var o := Pass(c, s.e.nodes[c.node.value], keys, timeUp, ans);
    PassRelease(c, s.e.nodes[c.node.value], keys, timeUp, ans);
    hide Pass;
    HeldUpdate(s.e.slots, i, o.c, id);
    assert c.node == Some(NodeAt(s, i));
  }

  /** An event writes the slot it finds for the same node. */
  lemma EventPlaces(s: Sys, s': Sys, i: nat, c: Cache, id: nat)
    requires i < |s.e.slots| && c.node == s.e.slots[i].node && s'.finished == s.finished
    requires s'.e == s.e.(slots := s.e.slots[i := c], nodes := s'.e.nodes)
    ensures Places(s')[id] == Places(s)[id]
  {
    HeldUpdate(s.e.slots, i, c, id);
  }

  lemma EndPlaces(s: Sys, h: nat, st: Status, effect: bool, ans: Answer, keys: seq<AppKey>, id: nat)
    requires h in s.due && Registered(s, s.due[h]) && s.worlds[s.due[h]].out.Some?
    requires Within(s.e.used, |s.e.slots|)
    ensures Places(TakeEnd(s, h, st, effect, ans, keys).s)[id] == Places(s)[id]
  {
    hide Handle, Places;
    var slot := CacheFromHandle(s.e, s.e.used, h);
    if slot.Some? {
      var s' := TakeEnd(s, h, st, effect, ans, keys).s;
      EventPlaces(s, s', slot.value, s'.e.slots[slot.value], id);
    }
  }

  lemma PagePlaces(s: Sys, h: nat, id: nat)
    requires h in s.due && Registered(s, s.due[h]) && Within(s.e.used, |s.e.slots|)
    ensures Places(TakePage(s, h).s)[id] == Places(s)[id]
  {
    hide Places;
    var slot := CacheFromHandle(s.e, s.e.used, h);
    if slot.Some? {
      var s' := TakePage(s, h).s;
      EventPlaces(s, s', slot.value, s'.e.slots[slot.value], id);
    }
  }

  /** Conservation: no move loses a node or puts it in a second place. */
  lemma MoveConserves(s: Sys, m: Move, keys: seq<AppKey>, id: nat)
    requires Possible(s, m) && Tracked(s.e)
    ensures Places(Next(s, m, keys).s)[id] == Places(s)[id] + (if m == Join(id) then 1 else 0)
  {
    match m {
      case LoadOne(removing) => TakePlaces(s, removing, id);
      case Visit(i, timeUp, ans, effect) => VisitPlaces(s, i, timeUp, ans, effect, keys, id);
      case PageEvent(h) => PagePlaces(s, h, id);
      case EndEvent(h, st, effect, ans) => EndPlaces(s, h, st, effect, ans, keys, id);
      case Join(j) =>
        hide Held;
    }
  }

  /* A move is a step of its node's session */

  /** After slot i was written for a node it is in alone, that node's cache is what was
      written, and the others have theirs. */
  lemma SlotWritten(slots: seq<Cache>, i: nat, c: Cache, id: nat)
    requires i < |slots| && (c.node == Some(id) || c == EMPTY)
    requires forall j :: 0 <= j < |slots| && j != i ==> slots[j].node != Some(id)
    requires slots[i].node == Some(id) || slots[i].node == None
    ensures CacheOf(slots[i := c], id) == c
    ensures forall k :: k != id ==> CacheOf(slots[i := c], k) == CacheOf(slots, k)
  {
    if c.node == Some(id) {
      FirstCache(slots[i := c], i, id);
    } else {
      CacheOfNone(slots[i := c], id);
    }
    forall k | k != id
      ensures CacheOf(slots[i := c], k) == CacheOf(slots, k)
    {
      CacheOfOthers(slots, i, c, k);
    }
  }

  lemma {:induction false} FirstCache(slots: seq<Cache>, i: nat, id: nat)
    requires i < |slots| && slots[i].node == Some(id)
    requires forall j :: 0 <= j < |slots| && j != i ==> slots[j].node != Some(id)
    ensures CacheOf(slots, id) == slots[i]
  {
    if i > 0 {
      forall j | 0 <= j < |slots[1..]| && j != i - 1
        ensures slots[1..][j].node != Some(id)
      {
        assert slots[j + 1].node != Some(id);
      }
      FirstCache(slots[1..], i - 1, id);
    }
  }

  /** A node in a list is in no slot. */
  lemma QueuedNotHeld(s: Sys, id: nat)
    requires Once(s) && (id in s.e.config || id in s.e.rm)
    ensures forall j :: 0 <= j < |s.e.slots| ==> s.e.slots[j].node != Some(id)
  {
    assert Places(s)[id] <= 1;
    forall j | 0 <= j < |s.e.slots|
      ensures s.e.slots[j].node != Some(id)
    {
      if s.e.slots[j].node == Some(id) {
        HeldOne(s.e.slots, j);
      }
    }
  }

  /** What a move does to the sessions. */
  ghost predicate IsStepOf(s: Sys, s': Sys, id: nat, act: Act, keys: seq<AppKey>)
  {
    && Registered(s, id) && Legal(SessionOf(s, id), act) && (act.Reply? ==> Works(SessionOf(s, id).c.state))
    && s'.e.nodes.Keys == s.e.nodes.Keys && s'.worlds.Keys == s.worlds.Keys
    && SessionOf(s', id) == Step(SessionOf(s, id), act, keys).s
    && forall k :: k != id && Registered(s, k) ==> SessionOf(s', k) == SessionOf(s, k)
  }

  /** Writing a session back to its slot, node and world changes that session alone. */
  lemma WritesBack(s: Sys, s': Sys, i: nat, id: nat, t: Session)
    requires i < |s.e.slots| && Registered(s, id) && (t.c.node == Some(id) || t.c == EMPTY)
    requires forall j :: 0 <= j < |s.e.slots| && j != i ==> s.e.slots[j].node != Some(id)
    requires s.e.slots[i].node == Some(id) || s.e.slots[i].node == None
    requires s'.e.slots == s.e.slots[i := t.c] && s'.e.nodes == s.e.nodes[id := t.n] && s'.worlds == s.worlds[id := t.w]
    ensures s'.e.nodes.Keys == s.e.nodes.Keys && s'.worlds.Keys == s.worlds.Keys
    ensures SessionOf(s', id) == t
    ensures forall k :: k != id && Registered(s, k) ==> SessionOf(s', k) == SessionOf(s, k)
  {
    SlotWritten(s.e.slots, i, t.c, id);
  }

  lemma SlotsApart(s: Sys, i: nat)
    requires Once(s) && i < |s.e.slots| && s.e.slots[i].node.Some?
    ensures forall j :: 0 <= j < |s.e.slots| && j != i ==> s.e.slots[j].node != s.e.slots[i].node
    ensures CacheOf(s.e.slots, s.e.slots[i].node.value) == s.e.slots[i]
  {
    OnceApart(s);
    CacheOfSlot(s.e.slots, i, s.e.slots[i].node.value);
  }

  lemma LoadIsStep(s: Sys, removing: bool, keys: seq<AppKey>)
    requires Inv(s, keys) && Possible(s, LoadOne(removing))
    ensures var id := Queue(s.e, removing)[0];
            IsStepOf(s, Next(s, LoadOne(removing), keys).s, id, Load(id, removing), keys)
  {
    var id := Queue(s.e, removing)[0];
    var i := LowestZero(s.e.used);
    assert s.e.slots[i] == EMPTY;
    assert id in Queue(s.e, removing);
    QueuedNotHeld(s, id);
    CacheOfNone(s.e.slots, id);
    hide AllSound, Held, Known, Routed;
    WritesBack(s, Next(s, LoadOne(removing), keys).s, i, id, Step(SessionOf(s, id), Load(id, removing), keys).s);
  }

  lemma VisitIsStep(s: Sys, m: Move, keys: seq<AppKey>)
    requires Inv(s, keys) && Possible(s, m) && m.Visit?
    ensures IsStepOf(s, Next(s, m, keys).s, NodeAt(s, m.i), ActOf(s, m), keys)
    ensures Next(s, m, keys).ok == Step(SessionOf(s, NodeAt(s, m.i)), ActOf(s, m), keys).ok
  {
    var i, id := m.i, NodeAt(s, m.i);
    SlotsApart(s, i);
    PassRelease(s.e.slots[i], s.e.nodes[id], keys, m.timeUp, m.ans);
    hide Inv, Pass;
    WritesBack(s, Next(s, m, keys).s, i, id, Step(SessionOf(s, id), ActOf(s, m), keys).s);
    hide SessionOf, Step, Next;
  }

  /** A handle with a response due leads the engine to the slot of its node, which waits. */
  lemma HandleFindsSlot(s: Sys, h: nat, keys: seq<AppKey>)
    requires Inv(s, keys) && h in s.due
    ensures var slot := CacheFromHandle(s.e, s.e.used, h);
            slot.Some? && s.e.slots[slot.value].node == Some(s.due[h]) && s.e.slots[slot.value].wait
  {
    hide AllSound, Loadable, Once, AllRegistered, Known, CacheFromHandle;
    var i: nat :| Expects(s, i) && s.e.slots[i].handle == h;
    assert Bit(s.e.used, i);
    var slot := CacheFromHandle(s.e, s.e.used, h);
    assert slot.Some?;
    assert slot.value == i;
  }

  /** The terminal event as the session step of the node whose slot was found. */
  lemma EndForm(s: Sys, m: Move, keys: seq<AppKey>, i: nat, id: nat)
    requires m.EndEvent? && Possible(s, m) && Within(s.e.used, |s.e.slots|) && id == s.due[m.h]
    requires CacheFromHandle(s.e, s.e.used, m.h) == Some(i) && s.e.slots[i].node == Some(id)
    requires CacheOf(s.e.slots, id) == s.e.slots[i]
    ensures var t := Step(SessionOf(s, id), ActOf(s, m), keys);
            var o := Next(s, m, keys);
            && o.ok == t.ok
            && o.s.e.slots == s.e.slots[i := t.s.c] && o.s.e.nodes == s.e.nodes[id := t.s.n]
               && o.s.worlds == s.worlds[id := t.s.w]
            && t.s.c.node == Some(id)
  {
    hide Handle, CacheFromHandle, Deliver, Settle;
  }

  lemma EndIsStep(s: Sys, m: Move, keys: seq<AppKey>)
    requires Inv(s, keys) && Possible(s, m) && m.EndEvent?
    ensures IsStepOf(s, Next(s, m, keys).s, s.due[m.h], ActOf(s, m), keys)
    ensures Next(s, m, keys).ok == Step(SessionOf(s, s.due[m.h]), ActOf(s, m), keys).ok
  {
    HandleFindsSlot(s, m.h, keys);
    var i, id := CacheFromHandle(s.e, s.e.used, m.h).value, s.due[m.h];
    SlotsApart(s, i);
    hide Inv, CacheFromHandle;
    EndForm(s, m, keys, i, id);
    hide Step, Next;
    WritesBack(s, Next(s, m, keys).s, i, id, Step(SessionOf(s, id), ActOf(s, m), keys).s);
    hide SessionOf;
  }

  lemma PageIsStep(s: Sys, m: Move, keys: seq<AppKey>)
    requires Inv(s, keys) && Possible(s, m) && m.PageEvent?
    ensures IsStepOf(s, Next(s, m, keys).s, s.due[m.h], Page, keys)
    ensures Next(s, m, keys).ok
  {
    HandleFindsSlot(s, m.h, keys);
    var i, id := CacheFromHandle(s.e, s.e.used, m.h).value, s.due[m.h];
    SlotsApart(s, i);
    hide Inv, CacheFromHandle;
    WritesBack(s, Next(s, m, keys).s, i, id, Step(SessionOf(s, id), Page, keys).s);
    hide SessionOf, Step, Next;
  }

  /** Every move but Join is one step of one node's session, and leaves the others alone. */
  lemma MoveIsStep(s: Sys, m: Move, keys: seq<AppKey>)
    requires Inv(s, keys) && Possible(s, m) && !m.Join?
    ensures IsStepOf(s, Next(s, m, keys).s, NodeOf(s, m), ActOf(s, m), keys)
    ensures Next(s, m, keys).ok == Step(SessionOf(s, NodeOf(s, m)), ActOf(s, m), keys).ok
  {
    hide Inv, IsStepOf;
    match m {
      case LoadOne(removing) => LoadIsStep(s, removing, keys);
      case Visit(_, _, _, _) => VisitIsStep(s, m, keys);
      case PageEvent(_) => PageIsStep(s, m, keys);
      case EndEvent(_, _, _, _) => EndIsStep(s, m, keys);
    }
  }

  /* Routing */

  /** What a slot is written with routes when the response due for it, and only that, is
      the one under its new handle, and this handle is no other slot's. */
  ghost predicate Reroutes(s: Sys, s': Sys, i: nat, c: Cache, id: nat) {
    && i < |s.e.slots| && s'.e.slots == s.e.slots[i := c]
    && (c.wait ==> c.node == Some(id) && c.handle != 0)
    && (c.handle == 0 || c.handle == s.e.slots[i].handle
        || forall j :: 0 <= j < |s.e.slots| ==> s.e.slots[j].handle != c.handle)
    && s'.due == (if c.wait then Stale(s, i)[c.handle := id] else Stale(s, i))
  }

  /** The responses due but for slot i. */
  function Stale(s: Sys, i: nat): map<nat, nat>
    requires i < |s.e.slots|
  {
    if s.e.slots[i].wait then Without(s.due, s.e.slots[i].handle) else s.due
  }

  lemma WriteRoutes(s: Sys, s': Sys, i: nat, c: Cache, id: nat)
    requires Routed(s) && Reroutes(s, s', i, c, id)
    ensures Routed(s')
  {
    forall j | 0 <= j < |s'.e.slots| && s'.e.slots[j].wait
      ensures Expects(s', j)
    {
      if j != i {
        assert Expects(s, j);
      }
    }
    forall h | h in s'.due
      ensures h != 0 && exists j: nat :: Expects(s', j) && s'.e.slots[j].handle == h
    {
      if c.wait && h == c.handle {
        assert Expects(s', i);
      } else {
        var j: nat :| Expects(s, j) && s.e.slots[j].handle == h;
        assert Expects(s', j);
      }
    }
  }

  /** The slot's handle after a pass is that of the command just accepted, if any. */
  lemma PassHandle(c: Cache, n: Node, keys: seq<AppKey>, timeUp: bool, ans: Answer)
    requires Pass(c, n, keys, timeUp, ans).ok && Pass(c, n, keys, timeUp, ans).release.Kept?
    ensures var o := Pass(c, n, keys, timeUp, ans);
            o.c.handle == if o.cmd.Some? && ans.Accepted? then ans.handle else c.handle
  {
    hide CommandFor, Guard, Retry;
    RetryHandle(c, n, keys, OnGuardTimer, ans);
    RetryHandle(c, n, keys, OnOom, ans);
    var r := Recover(c, n, keys, timeUp, ans);
    if Movable(r.c) {
      EnterHandle(if r.c.next == TO_NEXT then r.c.state + 1 else r.c.next, r.c, r.n, keys, ans);
    }
    hide Enter;
  }

  lemma RetryHandle(c: Cache, n: Node, keys: seq<AppKey>, reason: Reason, ans: Answer)
    ensures var o := Retry(c, n, keys, reason, ans);
            o.c.handle == if o.cmd.Some? && ans.Accepted? then ans.handle else c.handle
  {
  }

  lemma {:induction false} EnterHandle(s: int, c: Cache, n: Node, keys: seq<AppKey>, ans: Answer)
    requires GET_DCD <= s <= RM_END
    ensures var o := Enter(s, c, n, keys, ans);
            o.c.handle == if o.cmd.Some? && ans.Accepted? then ans.handle else c.handle
    decreases RM_END - s
  {
    hide CommandFor, Guard;
    if s != END && s != RM_END && !Guard(s, n) {
      EnterHandle(s + 1, c, n, keys, ans);
    }
  }

  /** The callback sent at most once, and when that was accepted the slot waits under the new handle. */
  predicate SentOnce(o: Out, handle: nat, ans: Answer) {
    && (o.c.handle == if o.cmd.Some? && ans.Accepted? then ans.handle else handle)
    && (o.ok && o.cmd.Some? && o.ret == Suc ==> o.c.wait)
  }

  lemma AdvanceSendsOnce(c: Cache, n: Node, keys: seq<AppKey>, ans: Answer)
    requires Iterates(c.state)
    ensures SentOnce(Advance(c, n, keys, ans), c.handle, ans)
  {
    hide CommandFor, ShapeOf;
  }

  lemma SuccessSendsOnce(c: Cache, n: Node, keys: seq<AppKey>, which: nat, ans: Answer)
    requires Works(c.state)
    ensures SentOnce(OnSuccess(c, n, keys, which, ans), c.handle, ans)
  {
    hide CommandFor, Advance, SentOnce;
    if Iterates(c.state) {
      AdvanceSendsOnce(c, n, keys, ans);
    } else {
      FixedSendsOnce(c, n, keys, which, ans);
    }
  }

  lemma FixedSendsOnce(c: Cache, n: Node, keys: seq<AppKey>, which: nat, ans: Answer)
    requires Works(c.state) && !Iterates(c.state)
    ensures SentOnce(OnSuccess(c, n, keys, which, ans), c.handle, ans)
  {
  }

  lemma InProgressHandle(c: Cache, n: Node, keys: seq<AppKey>, which: nat, st: Status, ans: Answer)
    requires Works(c.state)
    ensures SentOnce(InProgress(c, n, keys, which, st, ans), c.handle, ans)
  {
    hide CommandFor, Advance, OnSuccess;
    var c1 := c.(armed := false, wait := false);
    SuccessSendsOnce(c1.(ever := false, remaining := 0), n, keys, which, ans);
    if Iterates(c.state) {
      AdvanceSendsOnce(c1.(it := c1.it.(k := |n.cfg.sublist| - 1)), n, keys, ans);
    }
  }

  lemma ReplyHandle(c: Cache, n: Node, keys: seq<AppKey>, which: nat, st: Status, ans: Answer)
    requires Works(c.state) && c.wait
    ensures var o := Handle(c, n, keys, which, st, ans);
            o.c.handle == if o.cmd.Some? && ans.Accepted? then ans.handle else c.handle
  {
    InProgressHandle(c, n, keys, which, st, ans);
    hide InProgress, Retry;
    var r := InProgress(c, n, keys, which, st, ans);
    RetryHandle(r.c, r.n, keys, OnTimeout, ans);
  }

  lemma SlotIsSound(s: Sys, i: nat, keys: seq<AppKey>)
    requires Inv(s, keys) && Occupied(s.e, i) && Registered(s, NodeAt(s, i))
    ensures SessionOf(s, NodeAt(s, i)).c == s.e.slots[i]
    ensures Sound(SessionOf(s, NodeAt(s, i)), keys)
  {
    SlotsApart(s, i);
    hide Sound;
  }

  /** In a sound session only a waiting slot has its guard timer armed. */
  lemma ArmedWaits(t: Session, keys: seq<AppKey>)
    requires Sound(t, keys) && t.c.armed
    ensures t.c.wait
  {
  }

  lemma VisitRoutes(s: Sys, m: Move, keys: seq<AppKey>)
    requires Inv(s, keys) && Possible(s, m) && m.Visit? && Tame(s, m, keys)
    ensures Routed(Next(s, m, keys).s)
  {
    var i, id := m.i, NodeAt(s, m.i);
    var c := s.e.slots[i];
    SlotIsSound(s, i, keys);
    PassSound(SessionOf(s, id), keys, m.timeUp, m.ans);
    if c.armed {
      ArmedWaits(SessionOf(s, id), keys);
    }
    var o := Pass(c, s.e.nodes[id], keys, m.timeUp, m.ans);
    PassRelease(c, s.e.nodes[id], keys, m.timeUp, m.ans);
    if o.release.Kept? {
      PassHandle(c, s.e.nodes[id], keys, m.timeUp, m.ans);
    }
    assert c.wait ==> Expects(s, i);
    assert Routed(s) && Tracked(s.e);
    hide Inv, Pass, Deliver, Settle, InUse, SessionOf, Routed, Legal, Tame;
    VisitReroutes(s, Next(s, m, keys).s, i, o, id, m.timeUp, m.ans);
    WriteRoutes(s, Next(s, m, keys).s, i, o.c, id);
  }

  lemma VisitReroutes(s: Sys, s': Sys, i: nat, o: PassOut, id: nat, timeUp: bool, ans: Answer)
    requires i < |s.e.slots| && s'.e.slots == s.e.slots[i := o.c] && s.e.slots[i].node == Some(id)
    requires var c := s.e.slots[i];
             && (c.wait ==> Expects(s, i) && c.handle != 0)
             && (GuardFires(c, timeUp) ==> c.wait && o.cmd.Some?)
             && (c.wait && !GuardFires(c, timeUp) ==> o.c == c && o.cmd.None?)
             && (o.cmd.None? ==> o.c == c || !o.c.wait)
             && (o.release.Kept? ==> o.c.node == c.node)
             && (o.release.Freed? ==> o.c == EMPTY && (o.cmd.Some? ==> ans.Refused?))
             && (o.release.Kept? && o.cmd.Some? ==> (o.c.wait <==> ans.Accepted?))
             && (o.release.Kept? ==> o.c.handle == if o.cmd.Some? && ans.Accepted? then ans.handle else c.handle)
    requires NewHandle(s.e, ans)
    requires s'.due == WithSent(if GuardFires(s.e.slots[i], timeUp) then Without(s.due, s.e.slots[i].handle) else s.due,
                                o.cmd, ans, id)
    ensures Reroutes(s, s', i, o.c, id)
  {
  }

  lemma EndRoutes(s: Sys, m: Move, keys: seq<AppKey>)
    requires Inv(s, keys) && Possible(s, m) && m.EndEvent? && Tame(s, m, keys)
    ensures Routed(Next(s, m, keys).s)
  {
    var id := s.due[m.h];
    HandleFindsSlot(s, m.h, keys);
    var i := CacheFromHandle(s.e, s.e.used, m.h).value;
    var c := s.e.slots[i];
    SlotIsSound(s, i, keys);
    var t := SessionOf(s, id);
    Awaiting(t, keys);
    ReplySound(c, t.n, keys, t.w.comp, WhichOf(t.w.out.value), m.st, m.ans);
    ReplyHandle(c, t.n, keys, WhichOf(t.w.out.value), m.st, m.ans);
    var o := Handle(c, t.n, keys, WhichOf(t.w.out.value), m.st, m.ans);
    assert Routed(s) && m.h != 0;
    hide Inv, Handle, Deliver, Settle, Active, Sound, Over, Faulted, Routed, Legal, Tame, CacheFromHandle,
         WellConfigured;
    WriteRoutes(s, Next(s, m, keys).s, i, o.c, id);
  }

  lemma PageRoutes(s: Sys, m: Move, keys: seq<AppKey>)
    requires Inv(s, keys) && Possible(s, m) && m.PageEvent?
    ensures Routed(Next(s, m, keys).s)
  {
    hide CacheFromHandle, AllSound, Places, Loadable, Once, AllRegistered;
    HandleFindsSlot(s, m.h, keys);
    var i := CacheFromHandle(s.e, s.e.used, m.h).value;
    assert Routed(s) && m.h != 0;
    assert s.due == Stale(s, i)[m.h := s.due[m.h]];
    hide Inv, Routed;
    WriteRoutes(s, Next(s, m, keys).s, i, Next(s, m, keys).s.e.slots[i], s.due[m.h]);
  }

  lemma LoadRoutes(s: Sys, removing: bool, keys: seq<AppKey>)
    requires Tracked(s.e) && Routed(s) && CanTake(s.e, removing)
    ensures Routed(s.(e := Take(s.e, removing)))
  {
    var i := LowestZero(s.e.used);
    assert s.e.slots[i] == EMPTY;
    var s' := s.(e := Take(s.e, removing));
    WriteRoutes(s, s', i, s'.e.slots[i], 0);
  }

  lemma JoinRoutes(s: Sys, id: nat)
    requires Routed(s)
    ensures Routed(s.(e := s.e.(config := s.e.config + [id])))
  {
  }

  lemma MoveRoutes(s: Sys, m: Move, keys: seq<AppKey>)
    requires Inv(s, keys) && Possible(s, m) && Tame(s, m, keys)
    ensures Routed(Next(s, m, keys).s)
  {
    hide AllSound, Places, Tracked, Routed, Take, VisitSlot, TakePage, TakeEnd, Tame;
    match m {
      case LoadOne(removing) => LoadRoutes(s, removing, keys);
      case Visit(_, _, _, _) => VisitRoutes(s, m, keys);
      case PageEvent(_) => PageRoutes(s, m, keys);
      case EndEvent(_, _, _, _) => EndRoutes(s, m, keys);
      case Join(id) => JoinRoutes(s, id);
    }
  }

  /* The other invariants */

  lemma MoveTracks(s: Sys, m: Move, keys: seq<AppKey>)
    requires Inv(s, keys) && Possible(s, m)
    ensures Tracked(Next(s, m, keys).s.e) && Known(Next(s, m, keys).s.e)
  {
    hide AllSound, Places, Sound, Routed, Handle, Pass, Loadable;
    match m {
      case LoadOne(removing) => TakeTracks(s.e, removing);
      case Visit(i, timeUp, ans, _) => PassTracks(s.e, i, keys, timeUp, ans);
      case _ =>
    }
  }

  lemma PlacesKept(s: Sys, s': Sys, joined: Option<nat>)
    requires Once(s) && AllRegistered(s)
    requires s'.e.nodes.Keys == s.e.nodes.Keys && s'.worlds.Keys == s.worlds.Keys
    requires joined.Some? ==> Registered(s, joined.value) && Places(s)[joined.value] == 0
    requires forall id :: Places(s')[id] == Places(s)[id] + (if joined == Some(id) then 1 else 0)
    ensures Once(s') && AllRegistered(s')
  {
  }

  lemma MoveOnce(s: Sys, m: Move, keys: seq<AppKey>)
    requires Inv(s, keys) && Possible(s, m)
    requires Next(s, m, keys).s.e.nodes.Keys == s.e.nodes.Keys && Next(s, m, keys).s.worlds.Keys == s.worlds.Keys
    ensures Once(Next(s, m, keys).s) && AllRegistered(Next(s, m, keys).s)
  {
    hide AllSound, Places, Routed, Loadable, Next, Known, Once, AllRegistered;
    var s' := Next(s, m, keys).s;
    var joined := if m.Join? then Some(m.id) else None;
    forall id
      ensures Places(s')[id] == Places(s)[id] + (if joined == Some(id) then 1 else 0)
    {
      MoveConserves(s, m, keys, id);
    }
    PlacesKept(s, s', joined);
  }

  /** Waiting nodes stay loadable when neither they nor their devices were touched. */
  lemma QueueLoadable(s: Sys, s': Sys, a: nat)
    requires Loadable(s) && Registered(s, a)
    requires s'.e.nodes.Keys == s.e.nodes.Keys && s'.worlds.Keys == s.worlds.Keys
    requires forall k :: k != a && Registered(s, k) ==> SessionOf(s', k) == SessionOf(s, k)
    requires a in s'.e.config ==> s'.e.nodes[a] == s.e.nodes[a] && s'.worlds[a] == s.worlds[a]
    requires forall id :: id in s'.e.config ==> id in s.e.config
    ensures Loadable(s')
  {
    forall id | id in s'.e.config && Registered(s', id)
      ensures !s'.e.nodes[id].done && !s'.worlds[id].dev.wiped
    {
      assert id == a || SessionOf(s', id) == SessionOf(s, id);
    }
  }

  lemma MoveLoadable(s: Sys, m: Move, keys: seq<AppKey>)
    requires Inv(s, keys) && Possible(s, m)
    ensures Loadable(Next(s, m, keys).s)
  {
    var s' := Next(s, m, keys).s;
    if m.Join? {
      assert s'.e.config == s.e.config + [m.id];
    } else {
      MoveIsStep(s, m, keys);
      hide AllSound, Places, Routed, Handle, Pass, Known, SessionOf, Loadable;
      assert Loadable(s);
      if !m.LoadOne? {
        ActorNotQueued(s, m, keys);
      }
      QueueLoadable(s, s', NodeOf(s, m));
    }
  }

  /** The node of a move is in no list, but for the one just taken from its list. */
  lemma ActorNotQueued(s: Sys, m: Move, keys: seq<AppKey>)
    requires Inv(s, keys) && Possible(s, m) && !m.Join? && !m.LoadOne?
    ensures NodeOf(s, m) !in s.e.config
    ensures forall id :: id in Next(s, m, keys).s.e.config ==> id in s.e.config
  {
    hide AllSound, Places, Handle, Pass;
    if !m.Visit? {
      HandleFindsSlot(s, m.h, keys);
    }
    if NodeOf(s, m) in s.e.config {
      QueuedNotHeld(s, NodeOf(s, m));
    }
  }

  lemma MoveSound(s: Sys, m: Move, keys: seq<AppKey>)
    requires Inv(s, keys) && Possible(s, m) && Tame(s, m, keys) && !m.Join?
    ensures AllSound(Next(s, m, keys).s, keys)
    ensures Next(s, m, keys).ok
  {
    var s' := Next(s, m, keys).s;
    var a := NodeOf(s, m);
    MoveIsStep(s, m, keys);
    assert Sound(SessionOf(s, a), keys);
    hide Next, Step, Sound, SessionOf, Places, Routed;
    StepSound(SessionOf(s, a), ActOf(s, m), keys);
    forall id | Registered(s', id)
      ensures Sound(SessionOf(s', id), keys)
    {
      assert Registered(s, id) && Sound(SessionOf(s, id), keys);
    }
  }

  /** Every move the NCP, the devices and the engine may make keeps the invariants, and on
      none does an ASSERT fire or an event go to the wrong slot. */
  lemma MoveKeeps(s: Sys, m: Move, keys: seq<AppKey>)
    requires Inv(s, keys) && Possible(s, m) && Tame(s, m, keys)
    ensures Next(s, m, keys).ok
    ensures Inv(Next(s, m, keys).s, keys)
    ensures Next(s, m, keys).s.e.nodes.Keys == s.e.nodes.Keys && Next(s, m, keys).s.worlds.Keys == s.worlds.Keys
  {
    if m.Join? {
      JoinSound(s, m.id, keys);
    } else {
      MoveIsStep(s, m, keys);
      MoveSound(s, m, keys);
    }
    MoveTracks(s, m, keys);
    MoveOnce(s, m, keys);
    MoveRoutes(s, m, keys);
    MoveLoadable(s, m, keys);
    hide Tracked, Known, Once, AllRegistered, Routed, Loadable, AllSound, Next, Tame, Possible;
  }

  lemma JoinSound(s: Sys, id: nat, keys: seq<AppKey>)
    requires AllSound(s, keys)
    ensures AllSound(s.(e := s.e.(config := s.e.config + [id])), keys)
  {
    hide Sound;
    var s' := s.(e := s.e.(config := s.e.config + [id]));
    forall k | Registered(s', k)
      ensures Sound(SessionOf(s', k), keys)
    {
      assert Registered(s, k) && SessionOf(s', k) == SessionOf(s, k);
    }
  }
}
