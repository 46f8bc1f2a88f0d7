/** That phases get over: how many moves of the engine a configuring or removing phase can
    still take, and that there is one until its test says that it is over. */
module PhaseEnds {
  import opened Bits
  import opened Mesh
  import opened Slot
  import opened Session
  import opened SessionSound
  import opened SessionRuns
  import opened Termination
  import opened Engine
  import opened System
  import opened SystemRuns
  import opened NodeRuns
  import Phases

  /* One session */

  /** The moves a slot in use can still take: up to three for an answer it may still take. */
  function SlotRank(t: Session, keys: seq<AppKey>): nat {
    if t.c == EMPTY then 0 else 3 * SessionBudget(t, keys) + (if t.c.wait then 1 else 2)
  }

  /** The step brings the node on: a pass over a slot that does not wait, not answered
      out-of-memory, or a terminal event that counts. */
  predicate BringsOn(t: Session, act: Act) {
    (act.EnginePass? && !t.c.wait && !act.ans.OutOfMemory?) || Lowers(act)
  }

  /** A timeout whose resend is answered out-of-memory. */
  predicate SetsBack(act: Act) {
    act.Reply? && act.st == Timeout && act.ans.OutOfMemory?
  }

  lemma PassRanks(s: Session, act: Act, keys: seq<AppKey>)
    requires Sound(s, keys) && act.EnginePass? && Legal(s, act) && Benign(s, act, keys)
    ensures SlotRank(Step(s, act, keys).s, keys) + B2I(BringsOn(s, act)) <= SlotRank(s, keys)
  {
    PassSound(s, keys, act.timeUp, act.ans);
    PassSpends(s, keys, act.timeUp, act.ans);
    if GuardFires(s.c, act.timeUp) {
      assert Active(s.c, s.n, keys, s.w.comp);
      if act.ans.Refused? {
        RefusedResendFrees(s.c, s.n, keys, s.w.comp, act.timeUp);
      }
    }
    hide Pass, Budget, InUse, WellConfigured, OneErrorBit, CommandFor, Active;
  }

  lemma ReplyRanks(s: Session, act: Act, keys: seq<AppKey>)
    requires Sound(s, keys) && act.Reply? && Legal(s, act) && Benign(s, act, keys) && Works(s.c.state)
    ensures SlotRank(Step(s, act, keys).s, keys) + B2I(BringsOn(s, act)) <= SlotRank(s, keys) + B2I(SetsBack(act))
  {
    Awaiting(s, keys);
    StepSpends(s, act, keys);
    hide Step, SessionBudget, Sound, Active, Benign;
  }

  lemma StepRanks(s: Session, act: Act, keys: seq<AppKey>)
    requires Sound(s, keys) && Legal(s, act) && Benign(s, act, keys) && !act.Load?
    requires act.Reply? ==> Works(s.c.state)
    ensures SlotRank(Step(s, act, keys).s, keys) + B2I(BringsOn(s, act)) <= SlotRank(s, keys) + B2I(SetsBack(act))
  {
    hide SlotRank;
    match act {
      case EnginePass(_, _, _) => PassRanks(s, act, keys);
      case Page => PageRanks(s, keys);
      case Reply(_, _, _) => ReplyRanks(s, act, keys);
    }
  }

  lemma PageRanks(s: Session, keys: seq<AppKey>)
    requires Sound(s, keys) && Legal(s, Page)
    ensures SlotRank(Step(s, Page, keys).s, keys) <= SlotRank(s, keys)
  {
    Awaiting(s, keys);
    PageSpends(s.c, s.n, keys, s.w.comp);
    hide Budget, Sound;
  }

  /* The engine */

  /** The moves a node can still take: one more than a slot just loaded while it is listed. */
  function NodeRank(s: Sys, id: nat, removing: bool, keys: seq<AppKey>): nat
    requires Registered(s, id)
  {
    var t := SessionOf(s, id);
    if t.c == EMPTY && id in Queue(s.e, removing) then 3 * WorkOf(t, removing, keys) + 3 else SlotRank(t, keys)
  }

  function Rank(s: Sys, ids: seq<nat>, removing: bool, keys: seq<AppKey>): nat
    requires forall id :: id in ids ==> Registered(s, id)
  {
    if ids == [] then 0 else NodeRank(s, ids[0], removing, keys) + Rank(s, ids[1..], removing, keys)
  }

  /** ids names, each once, the nodes in the list of the phase and in the slots. */
  ghost predicate Covers(s: Sys, ids: seq<nat>, removing: bool) {
    && (forall i, j :: 0 <= i < j < |ids| ==> ids[i] != ids[j])
    && (forall id :: id in ids ==> Registered(s, id))
    && (forall id :: id in Queue(s.e, removing) || InSlot(s, id) ==> id in ids)
  }

  /** The engine moves of a configuring or a removing phase. */
  predicate OfPhase(m: Move, removing: bool) {
    !m.Join? && (m.LoadOne? ==> m.removing == removing)
  }

  /** The move brings its node on. */
  predicate Productive(s: Sys, m: Move)
    requires Possible(s, m) && !m.Join?
  {
    m.LoadOne? || (Registered(s, NodeOf(s, m)) && BringsOn(SessionOf(s, NodeOf(s, m)), ActOf(s, m)))
  }

  predicate SetsNodeBack(m: Move) {
    m.EndEvent? && m.st == Timeout && m.ans.OutOfMemory?
  }

  lemma ListAfter(s: Sys, m: Move, removing: bool, keys: seq<AppKey>)
    requires Possible(s, m) && Within(s.e.used, |s.e.slots|) && OfPhase(m, removing)
    ensures Queue(Next(s, m, keys).s.e, removing)
            == (if m.LoadOne? then Queue(s.e, removing)[1..] else Queue(s.e, removing))
  {
    hide Pass, Handle, CacheFromHandle;
  }

  /** A node in a slot is in no list, and one in a list is there once. */
  lemma ListedOnce(s: Sys, removing: bool, id: nat)
    requires Once(s)
    ensures InSlot(s, id) ==> id !in Queue(s.e, removing)
    ensures Queue(s.e, removing) != [] && id == Queue(s.e, removing)[0] ==> id !in Queue(s.e, removing)[1..]
  {
    HeldInSlot(s.e.slots, id);
    var q := Queue(s.e, removing);
    assert Places(s)[id] >= multiset(q)[id] + Held(s.e.slots)[id];
    if q != [] {
      assert q == [q[0]] + q[1..];
      assert multiset(q)[q[0]] == 1 + multiset(q[1..])[q[0]];
    }
    hide Places;
  }

  lemma ActorRanks(s: Sys, m: Move, removing: bool, keys: seq<AppKey>)
    requires Inv(s, keys) && Possible(s, m) && Tame(s, m, keys) && OfPhase(m, removing)
    ensures Within(s.e.used, |s.e.slots|) && Registered(s, NodeOf(s, m)) && Registered(Next(s, m, keys).s, NodeOf(s, m))
    ensures NodeRank(Next(s, m, keys).s, NodeOf(s, m), removing, keys) + B2I(Productive(s, m))
         <= NodeRank(s, NodeOf(s, m), removing, keys) + B2I(SetsNodeBack(m))
  {
    hide Next, SlotRank, Step, Work, SessionBudget, Places, AllSound, Routed, Loadable;
    var id := NodeOf(s, m);
    MoveIsStep(s, m, keys);
    ListAfter(s, m, removing, keys);
    ListedOnce(s, removing, id);
    SessionIsSound(s, id, keys);
    var t := SessionOf(s, id);
    hide Inv, Sound;
    if m.LoadOne? {
      LoadRanks(t, id, removing, keys);
    } else {
      ActorInSlot(s, m, keys);
      StepRanks(t, ActOf(s, m), keys);
      hide Possible;
    }
  }

  lemma LoadRanks(t: Session, id: nat, removing: bool, keys: seq<AppKey>)
    requires Legal(t, Load(id, removing))
    ensures SlotRank(Step(t, Load(id, removing), keys).s, keys) == 3 * WorkOf(t, removing, keys) + 2
  {
    LoadedBudget(Step(t, Load(id, removing), keys).s, id, removing, keys);
    hide Work, SessionBudget;
  }

  lemma ActorInSlot(s: Sys, m: Move, keys: seq<AppKey>)
    requires Inv(s, keys) && Possible(s, m) && !m.LoadOne? && !m.Join?
    ensures InSlot(s, NodeOf(s, m))
  {
    if !m.Visit? {
      HandleFindsSlot(s, m.h, keys);
    }
    hide AllSound, Places, CacheFromHandle;
  }

  /** A move takes as much off the rank of the engine as it brings its node on. */
  lemma {:induction false} RankAfter(s: Sys, m: Move, ids: seq<nat>, removing: bool, keys: seq<AppKey>)
    requires Inv(s, keys) && Possible(s, m) && Tame(s, m, keys) && OfPhase(m, removing)
    requires forall i, j :: 0 <= i < j < |ids| ==> ids[i] != ids[j]
    requires forall id :: id in ids ==> Registered(s, id)
    ensures Within(s.e.used, |s.e.slots|)
    ensures forall id :: id in ids ==> Registered(Next(s, m, keys).s, id)
    ensures var here := NodeOf(s, m) in ids;
            Rank(Next(s, m, keys).s, ids, removing, keys) + B2I(here && Productive(s, m))
            <= Rank(s, ids, removing, keys) + B2I(here && SetsNodeBack(m))
    decreases |ids|
  {
    hide Next, Tame, SlotRank, Productive, Step, Work, NodeRank, AllSound, Routed, Loadable, Once, Known, Places;
    MoveIsStep(s, m, keys);
    ListAfter(s, m, removing, keys);
    assert Within(s.e.used, |s.e.slots|);
    hide Inv, Possible;
    if ids != [] {
      var id := ids[0];
      RankAfter(s, m, ids[1..], removing, keys);
      if id == NodeOf(s, m) {
        ActorRanks(s, m, removing, keys);
        assert id !in ids[1..];
      } else {
        OthersRank(s, m, id, removing, keys);
      }
    }
  }

  lemma OthersRank(s: Sys, m: Move, id: nat, removing: bool, keys: seq<AppKey>)
    requires Inv(s, keys) && Possible(s, m) && OfPhase(m, removing) && Registered(s, id) && id != NodeOf(s, m)
    ensures Within(s.e.used, |s.e.slots|) && Registered(Next(s, m, keys).s, id)
    ensures NodeRank(Next(s, m, keys).s, id, removing, keys) == NodeRank(s, id, removing, keys)
  {
    MoveIsStep(s, m, keys);
    ListAfter(s, m, removing, keys);
    assert Within(s.e.used, |s.e.slots|);
    hide Inv, Next, SlotRank, Step, Work;
  }

  lemma CoversAfter(s: Sys, m: Move, ids: seq<nat>, removing: bool, keys: seq<AppKey>)
    requires Inv(s, keys) && Possible(s, m) && Tame(s, m, keys) && OfPhase(m, removing) && Covers(s, ids, removing)
    ensures Within(s.e.used, |s.e.slots|) && Covers(Next(s, m, keys).s, ids, removing)
    ensures NodeOf(s, m) in ids
  {
    MoveIsStep(s, m, keys);
    ListAfter(s, m, removing, keys);
    SlotsAfter(s, m, keys);
    if !m.LoadOne? {
      ActorInSlot(s, m, keys);
    }
    hide Inv, Next, SessionOf, Step, Legal;
  }

  lemma {:induction false} SlotOf(slots: seq<Cache>, id: nat)
    ensures var c := CacheOf(slots, id);
            if exists i :: 0 <= i < |slots| && slots[i].node == Some(id) then c.node == Some(id) else c == EMPTY
  {
    if slots != [] {
      SlotOf(slots[1..], id);
      if i :| 0 <= i < |slots[1..]| && slots[1..][i].node == Some(id) {
        assert slots[i + 1].node == Some(id);
      }
      if i :| 1 <= i < |slots| && slots[i].node == Some(id) {
        assert slots[1..][i - 1].node == Some(id);
      }
    }
  }

  lemma SlotsRegistered(s: Sys, keys: seq<AppKey>, id: nat)
    requires Inv(s, keys) && InSlot(s, id)
    ensures Registered(s, id)
  {
    HeldInSlot(s.e.slots, id);
    assert id in Places(s);
    hide AllSound, Held;
  }

  /** Only the node of the move comes into a slot. */
  lemma SlotsAfter(s: Sys, m: Move, keys: seq<AppKey>)
    requires Inv(s, keys) && Possible(s, m) && Tame(s, m, keys) && !m.Join?
    ensures Within(s.e.used, |s.e.slots|)
    ensures forall id :: InSlot(Next(s, m, keys).s, id) ==> InSlot(s, id) || id == NodeOf(s, m)
  {
    assert Within(s.e.used, |s.e.slots|);
    MoveIsStep(s, m, keys);
    MoveKeeps(s, m, keys);
    hide Inv, Next, Possible, Tame, Step;
    var s' := Next(s, m, keys).s;
    forall id | InSlot(s', id) && id != NodeOf(s, m)
      ensures InSlot(s, id)
    {
      SlotsRegistered(s', keys, id);
      assert Registered(s, id);
      SlotOf(s.e.slots, id);
      SlotOf(s'.e.slots, id);
    }
  }

  /* Over whole runs */

  /** The moves of a run that bring their nodes on, and the timeouts that set them back. */
  ghost function ProductiveMoves(s: Sys, moves: seq<Move>, keys: seq<AppKey>): nat
    requires Moves(s, moves, keys) && forall i :: 0 <= i < |moves| ==> !moves[i].Join?
    decreases |moves|
  {
    if moves == [] then 0
    else B2I(Productive(s, moves[0])) + ProductiveMoves(Next(s, moves[0], keys).s, moves[1..], keys)
  }

  function Setbacks(moves: seq<Move>): nat {
    if moves == [] then 0 else B2I(SetsNodeBack(moves[0])) + Setbacks(moves[1..])
  }

  predicate AllOfPhase(moves: seq<Move>, removing: bool) {
    forall i :: 0 <= i < |moves| ==> OfPhase(moves[i], removing)
  }

  /** However the slots interleave, a phase takes no more productive moves than the rank of its
      nodes and the timeouts that set a node back. */
  lemma {:induction false} MovesAreBounded(s: Sys, moves: seq<Move>, ids: seq<nat>, removing: bool, keys: seq<AppKey>)
    requires Inv(s, keys) && Moves(s, moves, keys) && AllOfPhase(moves, removing) && Covers(s, ids, removing)
    ensures Covers(EndOf(s, moves, keys), ids, removing) && Inv(EndOf(s, moves, keys), keys)
    ensures Rank(EndOf(s, moves, keys), ids, removing, keys) + ProductiveMoves(s, moves, keys)
         <= Rank(s, ids, removing, keys) + Setbacks(moves)
    decreases |moves|
  {
    hide Inv, Next, Rank, Productive, NodeRank;
    if moves != [] {
      assert OfPhase(moves[0], removing);
      MoveKeeps(s, moves[0], keys);
      CoversAfter(s, moves[0], ids, removing, keys);
      RankAfter(s, moves[0], ids, removing, keys);
      hide Possible, Tame, Covers, OfPhase;
      MovesAreBounded(Next(s, moves[0], keys).s, moves[1..], ids, removing, keys);
    }
  }

  lemma {:induction false} NoRank(s: Sys, ids: seq<nat>, removing: bool, keys: seq<AppKey>, id: nat)
    requires (forall k :: k in ids ==> Registered(s, k)) && Rank(s, ids, removing, keys) == 0 && id in ids
    ensures NodeRank(s, id, removing, keys) == 0
  {
    if id != ids[0] {
      NoRank(s, ids[1..], removing, keys, id);
    }
  }

  lemma RankedNode(s: Sys, removing: bool, keys: seq<AppKey>, id: nat)
    requires Inv(s, keys) && Registered(s, id) && (id in Queue(s.e, removing) || InSlot(s, id))
    ensures NodeRank(s, id, removing, keys) > 0
  {
    hide SessionBudget, Work, AllSound;
    if InSlot(s, id) {
      var i :| 0 <= i < |s.e.slots| && s.e.slots[i].node == Some(id);
      SlotsApart(s, i);
    }
  }

  /** Without rank the list of the phase is empty and no slot is in use. */
  lemma NothingLeft(s: Sys, ids: seq<nat>, removing: bool, keys: seq<AppKey>)
    requires Inv(s, keys) && Covers(s, ids, removing) && Rank(s, ids, removing, keys) == 0
    ensures Queue(s.e, removing) == [] && s.e.used == 0
  {
    assert Tracked(s.e);
    hide Inv, NodeRank, Rank;
    if Queue(s.e, removing) != [] {
      var id := Queue(s.e, removing)[0];
      NoRank(s, ids, removing, keys, id);
      RankedNode(s, removing, keys, id);
    }
    if s.e.used != 0 {
      var i := SomeBit(s.e.used);
      var id := s.e.slots[i].node.value;
      assert InSlot(s, id);
      NoRank(s, ids, removing, keys, id);
      RankedNode(s, removing, keys, id);
    }
  }

  /** A configuring or a removing phase is found over once as many productive moves were made
      as its nodes had rank at its start, and one more for each timeout that set a node back. */
  lemma PhaseGetsOver(m: Phases.Mgr, moves: seq<Move>, ids: seq<nat>, keys: seq<AppKey>)
    requires Phases.PhaseInv(m, keys) && (m.phase == Phases.CONFIGURING || m.phase == Phases.REMOVING)
    requires var removing := m.phase == Phases.REMOVING;
             Moves(m.s, moves, keys) && AllOfPhase(moves, removing) && Covers(m.s, ids, removing)
    ensures var removing := m.phase == Phases.REMOVING;
            && ProductiveMoves(m.s, moves, keys) <= Rank(m.s, ids, removing, keys) + Setbacks(moves)
            && (ProductiveMoves(m.s, moves, keys) == Rank(m.s, ids, removing, keys) + Setbacks(moves) ==>
                  Phases.PhaseDone(m.(s := EndOf(m.s, moves, keys))))
  {
    var removing := m.phase == Phases.REMOVING;
    hide Inv, Moves, EndOf, Rank, NodeRank;
    MovesAreBounded(m.s, moves, ids, removing, keys);
    var t := EndOf(m.s, moves, keys);
    if Rank(t, ids, removing, keys) == 0 {
      NothingLeft(t, ids, removing, keys);
    }
  }

  lemma LoadMore(s: Sys, removing: bool, keys: seq<AppKey>)
    requires Inv(s, keys) && |s.e.slots| > 0 && Queue(s.e, removing) != [] && s.e.used == 0
    ensures Possible(s, LoadOne(removing)) && Tame(s, LoadOne(removing), keys)
  {
    assert LowestZero(0) == 0;
    FirstIsRegistered(s, removing);
    hide Inv, Places;
    LoadIsTame(s, removing, keys);
  }

  lemma UsedSlot(s: Sys, i: nat, keys: seq<AppKey>)
    requires Inv(s, keys) && Bit(s.e.used, i)
    ensures Occupied(s.e, i) && Registered(s, NodeAt(s, i))
    ensures SessionOf(s, NodeAt(s, i)).c == s.e.slots[i] && Sound(SessionOf(s, NodeAt(s, i)), keys)
    ensures s.e.slots[i].wait ==> s.e.slots[i].handle in s.due && s.due[s.e.slots[i].handle] == NodeAt(s, i)
  {
    assert Tracked(s.e) && Known(s.e);
    HeldOne(s.e.slots, i);
    assert NodeAt(s, i) in Places(s);
    SlotIsSound(s, i, keys);
    assert s.e.slots[i].wait ==> Expects(s, i);
    hide AllSound, Sound, Held;
  }

  lemma VisitMore(s: Sys, i: nat, ans: Answer, keys: seq<AppKey>)
    requires Inv(s, keys) && Bit(s.e.used, i) && NewHandle(s.e, ans) && !ans.OutOfMemory?
    ensures var m := Visit(i, false, ans, false);
            && Possible(s, m) && Tame(s, m, keys)
            && i < |s.e.slots| && (!s.e.slots[i].wait ==> Productive(s, m))
  {
    UsedSlot(s, i, keys);
    hide Inv, Sound, SessionOf;
  }

  lemma EventMore(s: Sys, i: nat, ans: Answer, keys: seq<AppKey>)
    requires Inv(s, keys) && Bit(s.e.used, i) && NewHandle(s.e, ans) && !ans.OutOfMemory?
    ensures i < |s.e.slots|
    ensures s.e.slots[i].wait ==>
              var m := EndEvent(s.e.slots[i].handle, Timeout, false, ans);
              Possible(s, m) && Tame(s, m, keys) && Productive(s, m)
  {
    UsedSlot(s, i, keys);
    if s.e.slots[i].wait {
      assert SessionOf(s, NodeAt(s, i)).w.out.Some?;
      Awaiting(SessionOf(s, NodeAt(s, i)), keys);
      hide Inv, Sound, SessionOf, Active;
    }
  }

  /** And until then there is a productive move to be made, with any answer to the command it
      sends but out-of-memory. */
  lemma MoreToDo(s: Sys, removing: bool, ans: Answer, keys: seq<AppKey>) returns (m: Move)
    requires Inv(s, keys) && |s.e.slots| > 0 && (Queue(s.e, removing) != [] || s.e.used != 0)
    requires NewHandle(s.e, ans) && !ans.OutOfMemory?
    ensures Possible(s, m) && Tame(s, m, keys) && OfPhase(m, removing) && Productive(s, m)
  {
    hide Inv, Possible, Tame, BringsOn, NewHandle;
    if s.e.used == 0 {
      m := LoadOne(removing);
      LoadMore(s, removing, keys);
    } else {
      var i := SomeBit(s.e.used);
      VisitMore(s, i, ans, keys);
      EventMore(s, i, ans, keys);
      m := if s.e.slots[i].wait then EndEvent(s.e.slots[i].handle, Timeout, false, ans)
          else Visit(i, false, ans, false);
    }
  }
}
