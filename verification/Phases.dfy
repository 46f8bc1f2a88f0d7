/** The phases of a sync above the engine: set_mng_state, the loops that run in each
    phase, and the commands that start and stop a sync. */
module Phases {
  import opened Bits
  import opened Mesh
  import opened Slot
  import opened Session
  import opened SessionSound
  import opened Termination
  import opened Engine
  import opened System

  const CONFIGURED := 2
  const STARTING := 3
  const ADDING := 4
  const CONFIGURING := 5
  const REMOVING := 6
  const BLACKLISTING := 7

  /** add and bl are the lists of the other two procedures, and blIdle says that the
      blacklisting procedure is idle; prios is the order of phases and offs the next in it. */
  datatype Mgr = Mgr(phase: nat, offs: nat, prios: seq<char>, add: seq<nat>, bl: seq<nat>, blIdle: bool, s: Sys)

  datatype MgrOut = MgrOut(m: Mgr, ok: bool)

  /** seq_valid */
  predicate ValidOrder(prios: seq<char>) {
    |prios| == 3 && forall i :: 0 <= i < 3 ==> prios[i] in "arb-"
  }

  /** The lists a letter stands for are empty. */
  predicate NothingFor(m: Mgr, p: char) {
    if p == 'a' then m.add == [] && m.s.e.config == []
    else if p == 'r' then m.s.e.rm == []
    else m.bl == []
  }

  function PhaseFor(m: Mgr, p: char): nat {
    if p == 'a' then (if m.add != [] then ADDING else CONFIGURING)
    else if p == 'r' then REMOVING
    else BLACKLISTING
  }

  function ToConfigured(m: Mgr): Mgr {
    m.(phase := CONFIGURED, offs := 0)
  }

  /** The loop over the order of phases. */
  function NextPhase(m: Mgr): MgrOut
    decreases 3 - m.offs
  {
    if m.offs >= 3 then MgrOut(ToConfigured(m), true)
    else if m.offs >= |m.prios| || m.prios[m.offs] !in "arb-" then MgrOut(m, false)
    else if m.prios[m.offs] == '-' then MgrOut(ToConfigured(m), true)
    else if NothingFor(m, m.prios[m.offs]) then NextPhase(m.(offs := m.offs + 1))
    else MgrOut(m.(phase := PhaseFor(m, m.prios[m.offs]), offs := m.offs + 1), true)
  }

  /** The phase is over by the tests of the source; blacklisting asks for the list of
      nodes to remove. */
  predicate PhaseDone(m: Mgr) {
    if m.phase == ADDING then m.add == []
    else if m.phase == CONFIGURING then m.s.e.config == [] && m.s.e.used == 0
    else if m.phase == REMOVING then m.s.e.rm == [] && m.s.e.used == 0
    else if m.phase == BLACKLISTING then m.s.e.rm == [] && m.blIdle
    else true
  }

  function SetState(m: Mgr): MgrOut {
    if !(STARTING <= m.phase <= BLACKLISTING) || !PhaseDone(m) then MgrOut(m, true)
    else if m.phase == ADDING && (m.s.e.config != [] || m.s.e.used != 0) then MgrOut(m.(phase := CONFIGURING), true)
    else NextPhase(if m.phase == STARTING then m.(offs := 0) else m)
  }

  datatype Act =
    | Manage
    | Begin
    | Stop
    | Reload(add: seq<nat>, config: seq<nat>, rm: seq<nat>, bl: seq<nat>)
    | Provisioned(id: nat)
    | Blacklisting(bl: seq<nat>, idle: bool)
    | SetOrder(prios: seq<char>)
    | Engine(move: Move)

  function WithLists(m: Mgr, add: seq<nat>, config: seq<nat>, rm: seq<nat>, bl: seq<nat>): (n: Mgr)
    ensures n.add == add && n.s.e.config == config && n.s.e.rm == rm && n.bl == bl && n.s.e.fail == n.s.finished == []
    ensures n.phase == m.phase && n.offs == m.offs && n.prios == m.prios
  {
    m.(add := add, bl := bl, s := m.s.(e := m.s.e.(config := config, rm := rm, fail := []), finished := []))
  }

  /** The engine move runs in this phase: acc_loop loads and passes by the phase, events
      are handled in all. */
  predicate InPhase(phase: nat, move: Move) {
    match move
    case LoadOne(removing) => if removing then phase == REMOVING else phase == ADDING || phase == CONFIGURING
    case Visit(_, _, _, _) => ADDING <= phase <= REMOVING
    case Join(_) => false
    case _ => true
  }

  /** Nodes handed over by a reload are in the database, each in one list, and those to
      configure are neither done nor removed. */
  ghost predicate LoadableLists(s: Sys, config: seq<nat>, rm: seq<nat>) {
    && (forall id :: id in config || id in rm ==> Registered(s, id))
    && (forall id :: id in config ==> !s.e.nodes[id].done && !s.worlds[id].dev.wiped)
  }

  ghost predicate Can(m: Mgr, a: Act) {
    match a
    case Manage => true
    case Begin => m.phase < STARTING
    case Stop => m.phase >= STARTING
    case Reload(_, config, rm, _) =>
      && m.phase == STARTING && LoadableLists(m.s, config, rm)
      && forall id :: (multiset(config) + multiset(rm))[id] <= 1
    case Provisioned(id) => id in m.add && Possible(m.s, Join(id))
    case Blacklisting(_, _) => m.phase == BLACKLISTING
    case SetOrder(prios) => m.phase <= CONFIGURED && ValidOrder(prios)
    case Engine(move) => InPhase(m.phase, move) && Possible(m.s, move) && Within(m.s.e.used, |m.s.e.slots|)
  }

  function RemoveFirst(s: seq<nat>, id: nat): (r: seq<nat>)
    ensures id in s ==> multiset(s) == multiset(r) + multiset{id}
    ensures id !in s ==> r == s
  {
    assert s != [] ==> s == [s[0]] + s[1..];
    if s == [] then [] else if s[0] == id then s[1..] else [s[0]] + RemoveFirst(s[1..], id)
  }

  function Do(m: Mgr, a: Act, keys: seq<AppKey>): MgrOut
    requires a.Provisioned? ==> Possible(m.s, Join(a.id))
    requires a.Engine? ==> Possible(m.s, a.move) && Within(m.s.e.used, |m.s.e.slots|)
  {
    match a
    case Manage => SetState(m)
    case Begin => MgrOut(m.(phase := STARTING), true)
    case Stop => MgrOut(WithLists(m, [], [], [], []).(offs := 3), true)
    case Reload(add, config, rm, bl) => MgrOut(WithLists(m, add, config, rm, bl), true)
    case Provisioned(id) =>
      MgrOut(m.(add := RemoveFirst(m.add, id), s := m.s.(e := m.s.e.(config := m.s.e.config + [id]))), true)
    case Blacklisting(bl, idle) => MgrOut(m.(bl := bl, blIdle := idle), true)
    case SetOrder(prios) => MgrOut(m.(prios := prios), true)
    case Engine(move) =>
      var o := Next(m.s, move, keys);
      MgrOut(m.(s := o.s), o.ok)
  }

  /* What one manager step does */

  /** From offs on, the letters before k name empty lists and none is '-'. */
  predicate Skips(m: Mgr, offs: nat, k: nat) {
    offs <= k <= |m.prios| && forall i :: offs <= i < k ==> m.prios[i] in "arb" && NothingFor(m, m.prios[i])
  }

  /** The order holds no letter with work from offs up to its end or a '-'. */
  ghost predicate NoWorkLeft(m: Mgr) {
    m.offs >= 3 || exists k: nat :: Skips(m, m.offs, k) && (k == |m.prios| || m.prios[k] == '-')
  }

  /** The phase entered is that of the first letter with work from offs on. */
  predicate Enters(m: Mgr, n: Mgr) {
    && m.offs < n.offs <= |m.prios| && Skips(m, m.offs, n.offs - 1)
    && m.prios[n.offs - 1] in "arb" && !NothingFor(m, m.prios[n.offs - 1])
    && n.phase == PhaseFor(m, m.prios[n.offs - 1])
  }

  lemma SkipsOne(m: Mgr, k: nat)
    requires m.offs < |m.prios| && m.prios[m.offs] in "arb" && NothingFor(m, m.prios[m.offs])
    ensures var n := m.(offs := m.offs + 1); Skips(n, n.offs, k) ==> Skips(m, m.offs, k)
  {
  }

  /** The loop enters the phase of the first letter with work, past it in the order, or
      returns to configured when there is none before the end or a '-'. */
  lemma {:induction false} NextPhaseIsFirst(m: Mgr)
    requires ValidOrder(m.prios)
    ensures var o := NextPhase(m);
            && o.ok && o.m == m.(phase := o.m.phase, offs := o.m.offs)
            && if o.m.phase == CONFIGURED then NoWorkLeft(m) && o.m.offs == 0 else Enters(m, o.m)
    decreases 3 - m.offs
  {
    if m.offs < 3 {
      assert m.prios[m.offs] in "arb-";
      if m.prios[m.offs] != '-' && NothingFor(m, m.prios[m.offs]) {
        assert m.prios[m.offs] in "arb";
        var n := m.(offs := m.offs + 1);
        assert NextPhase(m) == NextPhase(n);
        NextPhaseIsFirst(n);
        hide NextPhase;
        var o := NextPhase(n).m;
        if o.phase == CONFIGURED {
          var k :=
            if n.offs >= 3 then 3
            else var k: nat :| Skips(n, n.offs, k) && (k == |n.prios| || n.prios[k] == '-'); k;
          SkipsOne(m, k);
          hide Skips, NothingFor;
        } else {
          SkipsOne(m, o.offs - 1);
          hide Skips;
        }
      } else {
        assert Skips(m, m.offs, m.offs);
        hide Skips;
      }
    }
  }

  /** One manager step: a phase is left only when it is over; adding gives way to
      configuring while nodes are left to configure; any other phase to the first letter
      with work further on in the order, or to configured. */
  lemma ManageStep(m: Mgr)
    requires ValidOrder(m.prios)
    ensures var o := SetState(m);
            && o.ok && o.m == m.(phase := o.m.phase, offs := o.m.offs)
            && (o.m != m ==> STARTING <= m.phase <= BLACKLISTING && PhaseDone(m))
            && (STARTING <= m.phase <= BLACKLISTING && PhaseDone(m) ==>
                  if m.phase == ADDING && (m.s.e.config != [] || m.s.e.used != 0) then
                    o.m.phase == CONFIGURING && o.m.offs == m.offs
                  else
                    var start := if m.phase == STARTING then m.(offs := 0) else m;
                    if o.m.phase == CONFIGURED then NoWorkLeft(start) && o.m.offs == 0 else Enters(start, o.m))
  {
    NextPhaseIsFirst(m);
    NextPhaseIsFirst(m.(offs := 0));
  }

  /* Slots never mix removal and configuration work */

  predicate Removing(c: Cache) {
    c.state >= END
  }

  predicate KindFits(phase: nat, c: Cache) {
    c.node.Some? ==> if phase == REMOVING then Removing(c) else ADDING <= phase <= CONFIGURING && !Removing(c)
  }

  /** Every slot works for the phase the manager is in; outside the phases that run the
      engine there is none in use. */
  ghost predicate KindsFit(m: Mgr) {
    forall i :: 0 <= i < |m.s.e.slots| ==> KindFits(m.phase, m.s.e.slots[i])
  }

  /** No '-' lies behind. */
  predicate BeforeStop(m: Mgr) {
    STARTING < m.phase && m.offs < 3 ==> forall i :: 0 <= i < m.offs && i < |m.prios| ==> m.prios[i] != '-'
  }

  ghost predicate PhaseInv(m: Mgr, keys: seq<AppKey>) {
    ValidOrder(m.prios) && m.offs <= 3 && BeforeStop(m) && KindsFit(m) && Inv(m.s, keys)
  }

  lemma ActiveKeepsKind(c: Cache, n: Node, keys: seq<AppKey>, comp: seq<Element>, timeUp: bool, ans: Answer)
    requires Active(c, n, keys, comp)
    requires !(GuardFires(c, timeUp) && ans.OutOfMemory?)
    ensures var o := Pass(c, n, keys, timeUp, ans);
            o.release.Kept? ==> o.c.state == c.state
  {
    hide CommandFor, Guard, Ready, Retry;
    if GuardFires(c, timeUp) {
      GuardRetrySound(c, n, keys, comp, ans);
      if ans.Refused? {
        FaultedEnds(Retry(c, n, keys, OnGuardTimer, ans).c, n, keys, ans);
      }
    } else if c.oom {
      OomRetrySound(c, n, keys, comp, ans);
      if ans.Refused? {
        FaultedEnds(Retry(c, n, keys, OnOom, ans).c, n, keys, ans);
      }
    }
  }

  lemma OverKeepsKind(c: Cache, n: Node, keys: seq<AppKey>, comp: seq<Element>, timeUp: bool, ans: Answer)
    requires Over(c, comp) || Fresh(c)
    requires WellConfigured(n, comp, keys)
    ensures var o := Pass(c, n, keys, timeUp, ans);
            o.release.Kept? ==> Removing(o.c) == Removing(c)
  {
    var s := if c.next == TO_NEXT then c.state + 1 else c.next;
    OverMoves(c, n, keys, comp, ans);
    EntersFresh(s, c, n, keys, ans);
    assert ToNextState(c, n, keys, ans) == Enter(s, c, n, keys, ans);
    hide CommandFor, Guard, WellConfigured, Enter, Ready;
  }

  /** A pass keeps the kind of work of a slot that stays in use. */
  lemma PassKeepsKind(t: Session, keys: seq<AppKey>, timeUp: bool, ans: Answer)
    requires Sound(t, keys) && t.c.node.Some?
    requires !(GuardFires(t.c, timeUp) && ans.OutOfMemory?)
    ensures var o := Pass(t.c, t.n, keys, timeUp, ans);
            o.release.Kept? ==> Removing(o.c) == Removing(t.c)
  {
    if Active(t.c, t.n, keys, t.w.comp) {
      ActiveKeepsKind(t.c, t.n, keys, t.w.comp, timeUp, ans);
    } else if Faulted(t.c) {
      FaultedEnds(t.c, t.n, keys, ans);
    } else {
      OverKeepsKind(t.c, t.n, keys, t.w.comp, timeUp, ans);
    }
  }

  lemma VisitFits(m: Mgr, move: Move, keys: seq<AppKey>)
    requires PhaseInv(m, keys) && move.Visit? && InPhase(m.phase, move) && Possible(m.s, move) && Tame(m.s, move, keys)
    ensures KindsFit(m.(s := Next(m.s, move, keys).s))
  {
    var i := move.i;
    var c := m.s.e.slots[i];
    SlotIsSound(m.s, i, keys);
    PassKeepsKind(SessionOf(m.s, NodeAt(m.s, i)), keys, move.timeUp, move.ans);
    PassRelease(c, m.s.e.nodes[NodeAt(m.s, i)], keys, move.timeUp, move.ans);
    assert KindFits(m.phase, c);
    hide Inv, Pass, Sound, SessionOf;
  }

  lemma EventFits(m: Mgr, move: Move, keys: seq<AppKey>)
    requires PhaseInv(m, keys) && (move.PageEvent? || move.EndEvent?) && Possible(m.s, move)
    ensures Within(m.s.e.used, |m.s.e.slots|)
    ensures KindsFit(m.(s := Next(m.s, move, keys).s))
  {
    hide Handle, CacheFromHandle, AllSound, Places, Routed, Loadable, Once, AllRegistered;
    assert Tracked(m.s.e);
    hide Inv;
    var slot := CacheFromHandle(m.s.e, m.s.e.used, move.h);
    if slot.Some? {
      assert KindFits(m.phase, m.s.e.slots[slot.value]);
    }
  }

  lemma EngineFits(m: Mgr, move: Move, keys: seq<AppKey>)
    requires PhaseInv(m, keys) && InPhase(m.phase, move) && Possible(m.s, move) && Tame(m.s, move, keys)
    ensures Within(m.s.e.used, |m.s.e.slots|)
    ensures KindsFit(m.(s := Next(m.s, move, keys).s))
  {
    match move {
      case LoadOne(removing) =>
        hide Inv;
        assert Within(m.s.e.used, |m.s.e.slots|) by {
          BitmapFits(m, keys);
        }
      case Visit(_, _, _, _) => VisitFits(m, move, keys);
      case _ => EventFits(m, move, keys);
    }
  }

  lemma BitmapFits(m: Mgr, keys: seq<AppKey>)
    requires Inv(m.s, keys)
    ensures Tracked(m.s.e) && Within(m.s.e.used, |m.s.e.slots|)
  {
  }

  /** With no bit set no slot is in use. */
  lemma NoneUsed(e: Eng)
    requires Tracked(e) && e.used == 0
    ensures forall i :: 0 <= i < |e.slots| ==> e.slots[i] == EMPTY
    ensures Held(e.slots) == multiset{}
  {
    forall i | 0 <= i < |e.slots|
      ensures e.slots[i] == EMPTY
    {
      ZeroHasNoBits(i);
    }
    HeldNone(e.slots);
  }

  lemma {:induction false} HeldNone(slots: seq<Cache>)
    requires forall i :: 0 <= i < |slots| ==> slots[i].node.None?
    ensures Held(slots) == multiset{}
  {
    if slots != [] {
      HeldNone(slots[1..]);
    }
  }

  /** Outside the phases that run the engine no bit is set. */
  lemma UsedFits(m: Mgr)
    requires Tracked(m.s.e) && KindsFit(m) && !(ADDING <= m.phase <= REMOVING)
    ensures m.s.e.used == 0
  {
    forall i | 0 <= i < |m.s.e.slots|
      ensures m.s.e.slots[i].node.None?
    {
      assert KindFits(m.phase, m.s.e.slots[i]);
    }
    if m.s.e.used != 0 {
      var i := SomeBit(m.s.e.used);
    }
  }

  /** A manager step keeps the place in the order, with no '-' behind. */
  lemma ManageKeepsPlace(m: Mgr)
    requires ValidOrder(m.prios) && m.offs <= 3 && BeforeStop(m)
    ensures var n := SetState(m).m;
            n.offs <= 3 && BeforeStop(n)
  {
    ManageStep(m);
    var n := SetState(m).m;
    var start := if m.phase == STARTING then m.(offs := 0) else m;
    hide SetState, PhaseDone, NoWorkLeft;
    if n.offs != m.offs && n.phase != CONFIGURED {
      assert Enters(start, n);
      hide NothingFor;
    }
  }

  /** Adding gives way to configuring with its slots in use. */
  lemma AddingFits(m: Mgr, n: Mgr)
    requires KindsFit(m) && m.phase == ADDING && n.phase == CONFIGURING && n.s == m.s
    ensures KindsFit(n)
  {
    forall i | 0 <= i < |n.s.e.slots|
      ensures KindFits(n.phase, n.s.e.slots[i])
    {
      assert KindFits(m.phase, m.s.e.slots[i]);
    }
  }

  /** Any other phase change finds the slots empty. */
  lemma EmptyFits(m: Mgr, n: Mgr)
    requires KindsFit(m) && Tracked(m.s.e) && PhaseDone(m) && n.s == m.s
    requires !(m.phase == ADDING && n.phase == CONFIGURING) && STARTING <= m.phase <= BLACKLISTING
    requires m.phase == ADDING ==> m.s.e.used == 0
    ensures KindsFit(n)
  {
    if !(ADDING <= m.phase <= REMOVING) {
      UsedFits(m);
    }
    hide KindsFit;
    NoneUsed(m.s.e);
    assert KindsFit(n) by {
      assert forall i :: 0 <= i < |n.s.e.slots| ==> KindFits(n.phase, n.s.e.slots[i]);
    }
  }

  /** A phase change finds the slots empty, or turns adding into configuring. */
  lemma ManageFits(m: Mgr, keys: seq<AppKey>)
    requires PhaseInv(m, keys)
    ensures SetState(m).ok && PhaseInv(SetState(m).m, keys)
  {
    ManageStep(m);
    ManageKeepsPlace(m);
    BitmapFits(m, keys);
    var n := SetState(m).m;
    hide Inv, SetState, NoWorkLeft, Enters, BeforeStop, Tracked;
    if m.phase == n.phase {
      assert n.s == m.s;
    } else if m.phase == ADDING && n.phase == CONFIGURING {
      AddingFits(m, n);
    } else {
      EmptyFits(m, n);
    }
    hide KindsFit;
  }

  /* The lists */

  lemma ListsRegistered(s: Sys, s': Sys, config: seq<nat>, rm: seq<nat>)
    requires AllRegistered(s) && LoadableLists(s, config, rm)
    requires s' == s.(e := s.e.(config := config, rm := rm, fail := []), finished := [])
    ensures AllRegistered(s')
  {
    forall id | id in Places(s')
      ensures Registered(s', id)
    {
      assert multiset(config)[id] + multiset(rm)[id] + Held(s.e.slots)[id] > 0;
      HeldIsPlaced(s, id);
      assert id in config || id in rm || id in Places(s);
    }
  }

  lemma ListsSound(s: Sys, s': Sys, keys: seq<AppKey>)
    requires AllSound(s, keys) && Routed(s)
    requires s'.e.slots == s.e.slots && s'.e.nodes == s.e.nodes && s'.worlds == s.worlds && s'.due == s.due
    ensures AllSound(s', keys) && Routed(s')
  {
    hide Sound;
    forall id | Registered(s', id)
      ensures Sound(SessionOf(s', id), keys)
    {
      assert Registered(s, id) && SessionOf(s', id) == SessionOf(s, id);
    }
    assert forall i: nat :: Expects(s, i) ==> Expects(s', i);
  }

  /** The lists may be replaced by any that keep the nodes apart. */
  lemma ListsKeep(s: Sys, config: seq<nat>, rm: seq<nat>, keys: seq<AppKey>)
    requires Inv(s, keys) && LoadableLists(s, config, rm)
    requires forall id :: multiset(config)[id] + multiset(rm)[id] + Held(s.e.slots)[id] <= 1
    ensures Inv(s.(e := s.e.(config := config, rm := rm, fail := []), finished := []), keys)
  {
    var s' := s.(e := s.e.(config := config, rm := rm, fail := []), finished := []);
    ListsRegistered(s, s', config, rm);
    hide AllRegistered;
    ListsSound(s, s', keys);
    hide AllSound, Routed, Loadable, Tracked, Known;
    assert Once(s') by {
      forall id
        ensures Places(s')[id] <= 1
      {
        assert Places(s')[id] == multiset(config)[id] + multiset(rm)[id] + Held(s.e.slots)[id];
      }
    }
  }

  lemma HeldIsPlaced(s: Sys, id: nat)
    ensures Held(s.e.slots)[id] <= Places(s)[id]
  {
  }

  /** A stop empties the lists and leaves the slots to finish. */
  lemma StopKeeps(m: Mgr, keys: seq<AppKey>)
    requires Inv(m.s, keys)
    ensures Inv(WithLists(m, [], [], [], []).s, keys)
  {
    forall id
      ensures Held(m.s.e.slots)[id] <= 1
    {
      HeldIsPlaced(m.s, id);
      assert Places(m.s)[id] <= 1;
    }
    hide Inv, Held;
    ListsKeep(m.s, [], [], keys);
  }

  lemma ReloadKeeps(m: Mgr, a: Act, keys: seq<AppKey>)
    requires PhaseInv(m, keys) && a.Reload? && Can(m, a)
    ensures Inv(Do(m, a, keys).m.s, keys)
  {
    BitmapFits(m, keys);
    hide Inv;
    UsedFits(m);
    NoneUsed(m.s.e);
    forall id
      ensures multiset(a.config)[id] + multiset(a.rm)[id] + Held(m.s.e.slots)[id] <= 1
    {
      assert (multiset(a.config) + multiset(a.rm))[id] <= 1;
    }
    ListsKeep(m.s, a.config, a.rm, keys);
  }

  /* The invariant over all runs */

  predicate TameAct(m: Mgr, a: Act, keys: seq<AppKey>)
    requires a.Engine? ==> Possible(m.s, a.move)
  {
    a.Engine? ==> Tame(m.s, a.move, keys)
  }

  /** Every act keeps the slots of one kind, that of the phase, and the engine's invariants. */
  lemma ActKeeps(m: Mgr, a: Act, keys: seq<AppKey>)
    requires PhaseInv(m, keys) && Can(m, a) && TameAct(m, a, keys)
    ensures Do(m, a, keys).ok && PhaseInv(Do(m, a, keys).m, keys)
    ensures Do(m, a, keys).m.s.e.nodes.Keys == m.s.e.nodes.Keys && Do(m, a, keys).m.s.worlds.Keys == m.s.worlds.Keys
  {
    hide Inv;
    match a {
      case Manage =>
        ManageFits(m, keys);
        ManageStep(m);
        hide SetState;
      case Begin =>
        BitmapFits(m, keys);
      case Stop => StopKeeps(m, keys);
      case Reload(_, _, _, _) => ReloadKeeps(m, a, keys);
      case Provisioned(id) =>
        BitmapFits(m, keys);
        MoveKeeps(m.s, Join(id), keys);
      case Blacklisting(_, _) =>
      case SetOrder(_) =>
      case Engine(move) =>
        EngineFits(m, move, keys);
        MoveKeeps(m.s, move, keys);
        hide Next, Possible, Tame;
    }
  }
}
