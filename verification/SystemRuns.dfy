/** What holds of the whole engine after every interleaving of its slots. */
module SystemRuns {
  import opened Bits
  import opened Mesh
  import opened Slot
  import opened Session
  import opened SessionSound
  import opened Progress
  import opened SessionRuns
  import opened Engine
  import opened System

  /** A sequence of moves the environment may make from s. */
  ghost predicate Moves(s: Sys, moves: seq<Move>, keys: seq<AppKey>)
    decreases |moves|
  {
    moves == [] ||
    (Possible(s, moves[0]) && Within(s.e.used, |s.e.slots|) && Tame(s, moves[0], keys)
     && Moves(Next(s, moves[0], keys).s, moves[1..], keys))
  }

  ghost function EndOf(s: Sys, moves: seq<Move>, keys: seq<AppKey>): Sys
    requires Moves(s, moves, keys)
    decreases |moves|
  {
    if moves == [] then s else EndOf(Next(s, moves[0], keys).s, moves[1..], keys)
  }

  /** No ASSERT fires and no event is lost or misrouted on the way. */
  ghost predicate AllGood(s: Sys, moves: seq<Move>, keys: seq<AppKey>)
    requires Moves(s, moves, keys)
    decreases |moves|
  {
    moves == [] || (Next(s, moves[0], keys).ok && AllGood(Next(s, moves[0], keys).s, moves[1..], keys))
  }

  /** The steps the moves are for the session of one node. */
  ghost function ActsFor(s: Sys, moves: seq<Move>, keys: seq<AppKey>, id: nat): seq<Act>
    requires Moves(s, moves, keys)
    decreases |moves|
  {
    if moves == [] then []
    else
      var rest := ActsFor(Next(s, moves[0], keys).s, moves[1..], keys, id);
      if !moves[0].Join? && NodeOf(s, moves[0]) == id then [ActOf(s, moves[0])] + rest else rest
  }

  /** The nodes the moves hand to the engine. */
  function Joined(moves: seq<Move>): multiset<nat> {
    if moves == [] then multiset{}
    else (if moves[0].Join? then multiset{moves[0].id} else multiset{}) + Joined(moves[1..])
  }

  lemma {:induction false} MovesKeep(s: Sys, moves: seq<Move>, keys: seq<AppKey>)
    requires Inv(s, keys) && Moves(s, moves, keys)
    ensures AllGood(s, moves, keys)
    ensures Inv(EndOf(s, moves, keys), keys)
    ensures EndOf(s, moves, keys).e.nodes.Keys == s.e.nodes.Keys && EndOf(s, moves, keys).worlds.Keys == s.worlds.Keys
    decreases |moves|
  {
    hide Inv, Next;
    if moves != [] {
      MoveKeeps(s, moves[0], keys);
      hide Possible, Tame;
      MovesKeep(Next(s, moves[0], keys).s, moves[1..], keys);
    }
  }

  lemma {:induction false} RunConservesNode(s: Sys, moves: seq<Move>, keys: seq<AppKey>, id: nat)
    requires Inv(s, keys) && Moves(s, moves, keys)
    ensures Places(EndOf(s, moves, keys))[id] == Places(s)[id] + Joined(moves)[id]
    decreases |moves|
  {
    hide Next, Places;
    if moves != [] {
      assert Tracked(s.e);
      MoveKeeps(s, moves[0], keys);
      MoveConserves(s, moves[0], keys, id);
      hide Inv, Tame, Possible;
      RunConservesNode(Next(s, moves[0], keys).s, moves[1..], keys, id);
    }
  }

  /** Conservation: after every run each node is in as many places as before, and one more
      for each time it was handed to the engine. */
  lemma RunConserves(s: Sys, moves: seq<Move>, keys: seq<AppKey>)
    requires Inv(s, keys) && Moves(s, moves, keys)
    ensures Places(EndOf(s, moves, keys)) == Places(s) + Joined(moves)
  {
    hide Next, Places, Inv, Moves, EndOf, Joined;
    forall id: nat
      ensures Places(EndOf(s, moves, keys))[id] == (Places(s) + Joined(moves))[id]
    {
      RunConservesNode(s, moves, keys, id);
    }
    assert Places(EndOf(s, moves, keys)) == Places(s) + Joined(moves);
  }

  predicate InSlot(s: Sys, id: nat) {
    exists i :: 0 <= i < |s.e.slots| && s.e.slots[i].node == Some(id)
  }

  lemma {:induction false} HeldInSlot(slots: seq<Cache>, id: nat)
    ensures id in Held(slots) <==> exists i :: 0 <= i < |slots| && slots[i].node == Some(id)
  {
    if slots != [] {
      HeldInSlot(slots[1..], id);
      if id in Held(slots[1..]) {
        var i :| 0 <= i < |slots[1..]| && slots[1..][i].node == Some(id);
        assert slots[i + 1].node == Some(id);
      }
      if i :| 0 <= i < |slots| && slots[i].node == Some(id) {
        assert i == 0 || slots[1..][i - 1].node == Some(id);
      }
    }
  }

  predicate OneOfFive(a: bool, b: bool, c: bool, d: bool, e: bool) {
    B2I(a) + B2I(b) + B2I(c) + B2I(d) + B2I(e) == 1
  }

  /** Every node handed to the engine is in exactly one of the lists of nodes to configure
      and to remove, one slot, the fail list and the finished nodes; and bit i of the bitmap is
      set exactly when slot i holds a node. */
  lemma EveryNodeIsSomewhere(s: Sys, moves: seq<Move>, keys: seq<AppKey>, id: nat)
    requires Inv(s, keys) && Moves(s, moves, keys)
    ensures var t := EndOf(s, moves, keys);
            && (id in Places(s) || id in Joined(moves) ==>
                  OneOfFive(id in t.e.config, id in t.e.rm, InSlot(t, id), id in t.e.fail, id in t.finished))
            && forall i :: 0 <= i < |t.e.slots| ==> (Bit(t.e.used, i) <==> t.e.slots[i].node.Some?)
  {
    hide Moves, EndOf, Inv, Joined, Places, OneOfFive, Held;
    MovesKeep(s, moves, keys);
    RunConserves(s, moves, keys);
    var t := EndOf(s, moves, keys);
    InvParts(t, keys, id);
    if id in Places(s) || id in Joined(moves) {
      assert id in Places(t);
      OnePlace(t, id);
    }
  }

  lemma InvParts(t: Sys, keys: seq<AppKey>, id: nat)
    requires Inv(t, keys)
    ensures Tracked(t.e) && Places(t)[id] <= 1
  {
    hide AllSound, Places;
  }

  lemma OnePlace(t: Sys, id: nat)
    requires id in Places(t) && Places(t)[id] <= 1
    ensures OneOfFive(id in t.e.config, id in t.e.rm, InSlot(t, id), id in t.e.fail, id in t.finished)
  {
    HeldInSlot(t.e.slots, id);
    hide Held;
  }

  /* Sessions of the nodes */

  /** Every run of the engine is, for every node, a run of its session. */
  lemma {:induction false} RunProjects(s: Sys, moves: seq<Move>, keys: seq<AppKey>, id: nat)
    requires Inv(s, keys) && Moves(s, moves, keys) && Registered(s, id)
    ensures Registered(EndOf(s, moves, keys), id)
    ensures Runs(SessionOf(s, id), ActsFor(s, moves, keys, id), keys)
    ensures After(SessionOf(s, id), ActsFor(s, moves, keys, id), keys) == SessionOf(EndOf(s, moves, keys), id)
    decreases |moves|
  {
    hide Inv, Next, SessionOf;
    if moves != [] {
      var m := moves[0];
      var s' := Next(s, m, keys).s;
      MoveKeeps(s, m, keys);
      RunProjects(s', moves[1..], keys, id);
      if m.Join? {
        JoinIsNoStep(s, m.id, id, keys);
      } else {
        MoveIsStep(s, m, keys);
        hide Possible, Step;
        if NodeOf(s, m) == id {
          PrependAct(SessionOf(s, id), ActOf(s, m), ActsFor(s', moves[1..], keys, id), keys);
        }
      }
    }
  }

  lemma JoinIsNoStep(s: Sys, j: nat, id: nat, keys: seq<AppKey>)
    requires Possible(s, Join(j)) && Within(s.e.used, |s.e.slots|) && Registered(s, id)
    ensures Registered(Next(s, Join(j), keys).s, id)
    ensures SessionOf(Next(s, Join(j), keys).s, id) == SessionOf(s, id)
  {
  }

  /* The loops of the engine are runs */

  /** The loading loop as moves. */
  function Loads(e: Eng, removing: bool): seq<Move>
    decreases |Queue(e, removing)|
  {
    if CanTake(e, removing) then [LoadOne(removing)] + Loads(Take(e, removing), removing) else []
  }

  lemma {:induction false} LoadIsMoves(s: Sys, removing: bool, keys: seq<AppKey>)
    requires Inv(s, keys)
    ensures Moves(s, Loads(s.e, removing), keys)
    ensures EndOf(s, Loads(s.e, removing), keys) == s.(e := CachesLoad(s.e, removing))
    decreases |Queue(s.e, removing)|
  {
    if CanTake(s.e, removing) {
      var m, rest := LoadOne(removing), Loads(Take(s.e, removing), removing);
      FirstIsRegistered(s, removing);
      LoadIsTame(s, removing, keys);
      MoveKeeps(s, m, keys);
      assert Tracked(s.e);
      hide Inv, Tame, Take;
      assert Next(s, m, keys) == SysOut(s.(e := Take(s.e, removing)), true);
      LoadIsMoves(s.(e := Take(s.e, removing)), removing, keys);
      assert ([m] + rest)[1..] == rest;
    }
  }

  lemma FirstIsRegistered(s: Sys, removing: bool)
    requires AllRegistered(s) && Queue(s.e, removing) != []
    ensures Registered(s, Queue(s.e, removing)[0])
  {
  }

  lemma LoadIsTame(s: Sys, removing: bool, keys: seq<AppKey>)
    requires Possible(s, LoadOne(removing))
    ensures Tame(s, LoadOne(removing), keys)
  {
  }

  /** The engine loop over the slots in todo can be taken, with these chances and with the
      commands it repeats carried out or not. */
  ghost predicate CanPass(s: Sys, todo: nat, keys: seq<AppKey>, chances: seq<Chance>, effects: seq<bool>)
    requires |chances| == |effects|
    decreases todo
  {
    todo == 0 ||
    (var i := TrailingZeros(todo);
     ClrBitSmaller(todo, i);
     && i < |chances|
     && var m := Visit(i, chances[i].timeUp, chances[i].ans, effects[i]);
        && Possible(s, m) && Within(s.e.used, |s.e.slots|) && Tame(s, m, keys)
        && CanPass(Next(s, m, keys).s, ClrBit(todo, i), keys, chances, effects))
  }

  /** The engine loop as moves. */
  function Visits(todo: nat, chances: seq<Chance>, effects: seq<bool>): seq<Move>
    requires |chances| == |effects|
    decreases todo
  {
    if todo == 0 then []
    else
      var i := TrailingZeros(todo);
      ClrBitSmaller(todo, i);
      if i >= |chances| then []
      else [Visit(i, chances[i].timeUp, chances[i].ans, effects[i])] + Visits(ClrBit(todo, i), chances, effects)
  }

  lemma {:induction false} PassIsMoves(s: Sys, todo: nat, keys: seq<AppKey>, chances: seq<Chance>, effects: seq<bool>)
    requires Inv(s, keys) && |chances| == |effects| == |s.e.slots| && CanPass(s, todo, keys, chances, effects)
    requires Within(todo, |s.e.slots|) && forall i: nat :: Bit(todo, i) ==> Bit(s.e.used, i)
    ensures Moves(s, Visits(todo, chances, effects), keys)
    ensures Tracked(s.e) && Known(s.e)
    ensures PassAll(s.e, todo, keys, chances).ok
    ensures EndOf(s, Visits(todo, chances, effects), keys).e == PassAll(s.e, todo, keys, chances).e
    decreases todo
  {
    assert Tracked(s.e) && Known(s.e);
    if todo != 0 {
      var i := TrailingZeros(todo);
      var m := Visit(i, chances[i].timeUp, chances[i].ans, effects[i]);
      ClrBitSmaller(todo, i);
      MoveKeeps(s, m, keys);
      PassTracks(s.e, i, keys, m.timeUp, m.ans);
      var s' := Next(s, m, keys).s;
      assert s'.e == PassSlot(s.e, i, keys, m.timeUp, m.ans).e;
      assert PassSlot(s.e, i, keys, m.timeUp, m.ans).ok;
      RestTodo(s.e, s'.e, todo, i);
      hide Inv, Tame, PassSlot, Next, Possible, Tracked, Known;
      PassIsMoves(s', ClrBit(todo, i), keys, chances, effects);
      var rest := Visits(ClrBit(todo, i), chances, effects);
      assert ([m] + rest)[1..] == rest;
    }
  }

  /** The start of the engine: nothing in the slots, and every node at its beginning. */
  ghost predicate Starts(s: Sys, keys: seq<AppKey>) {
    && s.e.used == 0 && (forall i :: 0 <= i < |s.e.slots| ==> s.e.slots[i] == EMPTY)
    && s.due == map[] && Once(s) && AllRegistered(s)
    && forall id :: Registered(s, id) ==> Begins(SessionOf(s, id), keys)
  }

  lemma StartsWell(s: Sys, keys: seq<AppKey>)
    requires Starts(s, keys)
    ensures Inv(s, keys)
  {
    hide WellConfigured, Places;
    forall i: nat
      ensures !Bit(0, i)
    {
      ZeroHasNoBits(i);
    }
    forall id | Registered(s, id)
      ensures Sound(SessionOf(s, id), keys)
    {
      BeginsWell(SessionOf(s, id), keys);
    }
    assert Loadable(s) by {
      forall id | id in s.e.config && Registered(s, id)
        ensures !s.e.nodes[id].done && !s.worlds[id].dev.wiped
      {
        assert Begins(SessionOf(s, id), keys);
      }
    }
  }

  /** No slot gets stuck: after every interleaving each slot in use awaits a response the
      NCP still owes it, or has a resend pending, or has a state to enter, and only one of
      the three; and no ASSERT fired and no event went astray. */
  lemma NoSlotOfManyGetsStuck(s: Sys, moves: seq<Move>, keys: seq<AppKey>, i: nat)
    requires Starts(s, keys) && Moves(s, moves, keys)
    ensures AllGood(s, moves, keys)
    ensures var t := EndOf(s, moves, keys);
            Tracked(t.e) && (i < |t.e.slots| && t.e.slots[i].node.Some? ==>
              var c := t.e.slots[i];
              && !(c.wait && c.oom)
              && (c.next != c.state <==> !c.wait && !c.oom)
              && (c.wait ==> c.handle in t.due && CacheFromHandle(t.e, t.e.used, c.handle) == Some(i)))
  {
    StartsWell(s, keys);
    MovesKeep(s, moves, keys);
    var t := EndOf(s, moves, keys);
    hide Moves, EndOf, Starts;
    if i < |t.e.slots| && t.e.slots[i].node.Some? {
      SlotAtRest(t, i, keys);
    }
  }

  lemma SlotAtRest(t: Sys, i: nat, keys: seq<AppKey>)
    requires Inv(t, keys) && i < |t.e.slots| && t.e.slots[i].node.Some?
    ensures var c := t.e.slots[i];
            && !(c.wait && c.oom)
            && (c.next != c.state <==> !c.wait && !c.oom)
            && (c.wait ==> c.handle in t.due && CacheFromHandle(t.e, t.e.used, c.handle) == Some(i))
  {
    var c := t.e.slots[i];
    HeldOne(t.e.slots, i);
    assert c.node.value in Places(t);
    assert Registered(t, c.node.value);
    SlotIsSound(t, i, keys);
    if c.wait {
      assert Expects(t, i);
      HandleFindsSlot(t, c.handle, keys);
      SlotsApart(t, i);
    }
    hide Inv, SessionOf, CacheFromHandle, WellConfigured, OneErrorBit;
  }

  /** Configured means configured, for every node however the slots interleave. */
  lemma ConfiguredNodesAreConfigured(s: Sys, moves: seq<Move>, keys: seq<AppKey>, id: nat)
    requires Starts(s, keys) && Moves(s, moves, keys) && Registered(s, id)
    ensures Registered(EndOf(s, moves, keys), id)
    ensures var t := SessionOf(EndOf(s, moves, keys), id);
            t.n.done && !t.w.dev.wiped ==>
              AllBound(t.n, keys, t.w) && AllPublish(t.n, keys, t.w) && AllSubscribe(t.n, t.w) && AllFeatures(t.n, t.w)
  {
    StartsWell(s, keys);
    RunProjects(s, moves, keys, id);
    hide Inv, Moves, Next, SessionOf, Runs, After;
    ConfiguredMeansConfigured(SessionOf(s, id), ActsFor(s, moves, keys, id), keys);
  }

  /** Binding after key and publication after binding, for every device however the slots interleave. */
  lemma CommandOrderOnEveryDevice(s: Sys, moves: seq<Move>, keys: seq<AppKey>, id: nat, i: nat)
    requires Starts(s, keys) && Moves(s, moves, keys) && Registered(s, id)
    ensures Registered(EndOf(s, moves, keys), id)
    ensures var log := SessionOf(EndOf(s, moves, keys), id).w.log;
            i < |log| && log[i].Sent? ==>
              && (log[i].cmd.Bind? ==> exists j :: 0 <= j < i && log[j] == Got(AddKey(log[i].cmd.key), Success))
              && (log[i].cmd.SetPub? ==>
                    exists j :: 0 <= j < i
                      && log[j] == Got(Bind(log[i].cmd.e, log[i].cmd.model, log[i].cmd.key), Success))
  {
    StartsWell(s, keys);
    RunProjects(s, moves, keys, id);
    hide Inv, Moves, Next, SessionOf, Runs, After;
    CommandOrder(SessionOf(s, id), ActsFor(s, moves, keys, id), keys);
  }
}
