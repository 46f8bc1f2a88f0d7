/** What holds after every run of the manager: any number of syncs with their phases. */
module PhaseRuns {
  import opened Bits
  import opened Mesh
  import opened Slot
  import S = Session
  import opened SessionRuns
  import opened Engine
  import opened System
  import opened SystemRuns
  import opened Phases

  /** A sequence of acts the manager, the engine and the environment may make from m. */
  ghost predicate Acts(m: Mgr, acts: seq<Act>, keys: seq<AppKey>)
    decreases |acts|
  {
    acts == [] ||
    (Can(m, acts[0]) && TameAct(m, acts[0], keys) && Acts(Do(m, acts[0], keys).m, acts[1..], keys))
  }

  ghost function Final(m: Mgr, acts: seq<Act>, keys: seq<AppKey>): Mgr
    requires Acts(m, acts, keys)
    decreases |acts|
  {
    if acts == [] then m else Final(Do(m, acts[0], keys).m, acts[1..], keys)
  }

  ghost predicate AllHold(m: Mgr, acts: seq<Act>, keys: seq<AppKey>)
    requires Acts(m, acts, keys)
    decreases |acts|
  {
    acts == [] || (Do(m, acts[0], keys).ok && AllHold(Do(m, acts[0], keys).m, acts[1..], keys))
  }

  lemma {:induction false} ActsKeep(m: Mgr, acts: seq<Act>, keys: seq<AppKey>)
    requires PhaseInv(m, keys) && Acts(m, acts, keys)
    ensures AllHold(m, acts, keys) && PhaseInv(Final(m, acts, keys), keys)
    decreases |acts|
  {
    hide PhaseInv, Do;
    if acts != [] {
      ActKeeps(m, acts[0], keys);
      hide Can, TameAct;
      ActsKeep(Do(m, acts[0], keys).m, acts[1..], keys);
    }
  }

  /** Before the first sync. */
  ghost predicate Initial(m: Mgr, keys: seq<AppKey>) {
    m.phase <= CONFIGURED && ValidOrder(m.prios) && m.offs <= 3 && Starts(m.s, keys)
  }

  lemma InitialHolds(m: Mgr, keys: seq<AppKey>)
    requires Initial(m, keys)
    ensures PhaseInv(m, keys)
  {
    StartsWell(m.s, keys);
    hide Inv;
  }

  /** Slots never mix removal and configuration work, over any number of syncs: a slot in
      use removes its node in the removing phase and configures it in the adding and
      configuring ones, and in every other phase no slot is in use. */
  lemma SlotsOfOneKind(m: Mgr, acts: seq<Act>, keys: seq<AppKey>, i: nat)
    requires Initial(m, keys) && Acts(m, acts, keys)
    ensures AllHold(m, acts, keys)
    ensures var t := Final(m, acts, keys);
            i < |t.s.e.slots| && t.s.e.slots[i].node.Some? ==>
              if Removing(t.s.e.slots[i]) then t.phase == REMOVING else t.phase == ADDING || t.phase == CONFIGURING
  {
    InitialHolds(m, keys);
    ActsKeep(m, acts, keys);
    var t := Final(m, acts, keys);
    hide Acts, Final, Inv, Initial;
    if i < |t.s.e.slots| {
      assert KindFits(t.phase, t.s.e.slots[i]);
    }
  }

  /* The order of phases within a sync */

  /** The manager step enters a phase by the order, and not by turning adding into configuring. */
  predicate EntersByOrder(m: Mgr, a: Act) {
    a.Manage? && SetState(m).m != m && SetState(m).m.phase != CONFIGURED && SetState(m).m.offs != m.offs
  }

  /** The places in the order of the phases entered. */
  ghost function Entered(m: Mgr, acts: seq<Act>, keys: seq<AppKey>): seq<int>
    requires Acts(m, acts, keys)
    decreases |acts|
  {
    if acts == [] then []
    else
      var rest := Entered(Do(m, acts[0], keys).m, acts[1..], keys);
      if EntersByOrder(m, acts[0]) then [SetState(m).m.offs - 1] + rest else rest
  }

  predicate NoBegin(acts: seq<Act>) {
    forall i :: 0 <= i < |acts| ==> !acts[i].Begin?
  }

  /** The first place in the order a phase may still be entered at. */
  function Floor(m: Mgr): nat {
    if m.phase == STARTING then 0 else if STARTING < m.phase <= BLACKLISTING then m.offs else 3
  }

  /** The place names a phase, and no '-' comes before it. */
  predicate Reachable(prios: seq<char>, k: int) {
    0 <= k < |prios| && prios[k] in "arb" && '-' !in prios[..k]
  }

  lemma ManageMovesOn(m: Mgr, keys: seq<AppKey>)
    requires PhaseInv(m, keys)
    ensures var n := SetState(m).m;
            && Floor(m) <= Floor(n) && n.prios == m.prios
            && (EntersByOrder(m, Manage) ==> Floor(m) < n.offs == Floor(n) && Reachable(m.prios, n.offs - 1))
  {
    hide Inv;
    ManageStep(m);
    var n := SetState(m).m;
    hide SetState;
    if EntersByOrder(m, Manage) {
      var start := if m.phase == STARTING then m.(offs := 0) else m;
      assert Enters(start, n);
      forall i | 0 <= i < n.offs - 1
        ensures m.prios[i] != '-'
      {
        if i >= start.offs {
          assert m.prios[i] in "arb";
        }
      }
    }
  }

  lemma OthersStay(m: Mgr, a: Act, keys: seq<AppKey>)
    requires PhaseInv(m, keys) && Can(m, a) && !a.Manage? && !a.Begin?
    ensures var n := Do(m, a, keys).m;
            Floor(m) <= Floor(n) && (m.phase > CONFIGURED ==> n.prios == m.prios) && n.phase == m.phase
  {
  }

  ghost predicate Ascends(e: seq<int>, floor: nat, prios: seq<char>) {
    && (forall i, j :: 0 <= i < j < |e| ==> e[i] < e[j])
    && (forall i :: 0 <= i < |e| ==> floor <= e[i] && Reachable(prios, e[i]))
  }

  lemma AscendsFrom(e: seq<int>, k: int, floor: nat, floor': nat, prios: seq<char>)
    requires Ascends(e, floor', prios) && floor <= k < floor' && Reachable(prios, k)
    ensures Ascends([k] + e, floor, prios)
  {
  }

  /** What one act does to the places still to be entered. */
  lemma ActMovesOn(m: Mgr, a: Act, keys: seq<AppKey>)
    requires PhaseInv(m, keys) && Can(m, a) && TameAct(m, a, keys) && !a.Begin?
    ensures var n := Do(m, a, keys).m;
            && PhaseInv(n, keys) && |n.prios| == 3
            && Floor(m) <= Floor(n) && (Floor(m) < 3 ==> n.prios == m.prios)
            && (EntersByOrder(m, a) ==>
                  n.offs > 0 && SetState(m).m.offs == n.offs && n.prios == m.prios
                  && Floor(m) <= n.offs - 1 < Floor(n) && Reachable(m.prios, n.offs - 1))
  {
    ActKeeps(m, a, keys);
    if a.Manage? {
      ManageMovesOn(m, keys);
    } else {
      OthersStay(m, a, keys);
    }
    hide Inv, Next, SetState, KindsFit, Reachable;
  }

  /** Phases are entered in the order given, strictly forward and never past a '-'. */
  lemma {:induction false} PhasesInOrder(m: Mgr, acts: seq<Act>, keys: seq<AppKey>)
    requires PhaseInv(m, keys) && Acts(m, acts, keys) && NoBegin(acts)
    ensures Ascends(Entered(m, acts, keys), Floor(m), m.prios)
    decreases |acts|
  {
    hide PhaseInv, Do, SetState, Floor, Reachable;
    if acts != [] {
      var a := acts[0];
      var n := Do(m, a, keys).m;
      ActMovesOn(m, a, keys);
      hide EntersByOrder, Can, TameAct;
      PhasesInOrder(n, acts[1..], keys);
      var rest := Entered(n, acts[1..], keys);
      if EntersByOrder(m, a) {
        AscendsFrom(rest, n.offs - 1, Floor(m), Floor(n), m.prios);
      } else if Floor(m) >= 3 {
        NothingAtThree(rest, Floor(n), n.prios);
      }
    }
  }

  lemma NothingAtThree(e: seq<int>, floor: nat, prios: seq<char>)
    requires Ascends(e, floor, prios) && |prios| == 3 <= floor
    ensures e == []
  {
    var first := if e == [] then 0 else e[0];
    assert e != [] ==> Reachable(prios, first);
  }

  /* The return to configured */

  /** Manager steps that may still find a phase over before the return to configured. */
  function Rank(m: Mgr): nat {
    if m.phase == STARTING then 8
    else if !(STARTING < m.phase <= BLACKLISTING) || m.offs > 3 then 0
    else 2 * (3 - m.offs) + (if m.phase == ADDING then 2 else 1)
  }

  predicate FindsOver(m: Mgr, a: Act) {
    a.Manage? && STARTING <= m.phase <= BLACKLISTING && PhaseDone(m)
  }

  /** The manager steps of a run that find their phase over. */
  ghost function Overs(m: Mgr, acts: seq<Act>, keys: seq<AppKey>): nat
    requires Acts(m, acts, keys)
    decreases |acts|
  {
    if acts == [] then 0
    else (if FindsOver(m, acts[0]) then 1 else 0) + Overs(Do(m, acts[0], keys).m, acts[1..], keys)
  }

  lemma RankDrops(m: Mgr, a: Act, keys: seq<AppKey>)
    requires PhaseInv(m, keys) && Can(m, a) && !a.Begin?
    ensures Rank(Do(m, a, keys).m) + (if FindsOver(m, a) then 1 else 0) <= Rank(m)
  {
    hide Inv, Next;
    if a.Manage? {
      ManageStep(m);
    }
    hide SetState, Skips, NothingFor;
  }

  /** A sync returns to configured: after eight manager steps that find their phase over
      no phase is left. */
  lemma {:induction false} SyncComesToItsEnd(m: Mgr, acts: seq<Act>, keys: seq<AppKey>)
    requires PhaseInv(m, keys) && Acts(m, acts, keys) && NoBegin(acts)
    ensures Overs(m, acts, keys) + Rank(Final(m, acts, keys)) <= Rank(m) <= 8
    ensures Rank(Final(m, acts, keys)) == 0 <==> !(STARTING <= Final(m, acts, keys).phase <= BLACKLISTING)
    decreases |acts|
  {
    if acts != [] {
      RankDrops(m, acts[0], keys);
      ActKeeps(m, acts[0], keys);
      hide PhaseInv, Do, Can, TameAct, FindsOver;
      SyncComesToItsEnd(Do(m, acts[0], keys).m, acts[1..], keys);
    }
  }

  /* Blacklisting waits for the nodes to remove */

  predicate NoStop(acts: seq<Act>) {
    forall i :: 0 <= i < |acts| ==> !acts[i].Stop?
  }

  lemma OnlyRemovingRemoves(m: Mgr, a: Act, keys: seq<AppKey>)
    requires Can(m, a) && !a.Stop? && !a.Reload? && m.phase != REMOVING
    ensures Do(m, a, keys).m.s.e.rm == m.s.e.rm
  {
    if a.Manage? {
      ManageKeepsLists(m);
    }
    hide Handle, Pass;
  }

  lemma {:induction false} ManageKeepsLists(m: Mgr)
    ensures SetState(m).m.s == m.s
  {
    NextKeepsLists(m);
    NextKeepsLists(m.(offs := 0));
    hide NextPhase;
  }

  lemma {:induction false} NextKeepsLists(m: Mgr)
    ensures NextPhase(m).m.s == m.s
    decreases 3 - m.offs
  {
    if m.offs < 3 {
      NextKeepsLists(m.(offs := m.offs + 1));
    }
  }

  /** Blacklisting that starts while nodes wait to be removed never ends, whatever the
      blacklisting procedure does: only a stop gets the manager out of it. */
  lemma {:induction false} BlacklistingStuck(m: Mgr, acts: seq<Act>, keys: seq<AppKey>)
    requires Acts(m, acts, keys) && NoStop(acts)
    requires m.phase == BLACKLISTING && m.s.e.rm != []
    ensures Final(m, acts, keys).phase == BLACKLISTING && Final(m, acts, keys).s.e.rm != []
    decreases |acts|
  {
    if acts != [] {
      var a := acts[0];
      assert !a.Stop? && !a.Begin? && !a.Reload?;
      OnlyRemovingRemoves(m, a, keys);
      StaysBlacklisting(m, a, keys);
      hide Do, Can, TameAct;
      BlacklistingStuck(Do(m, a, keys).m, acts[1..], keys);
    }
  }

  lemma StaysBlacklisting(m: Mgr, a: Act, keys: seq<AppKey>)
    requires Can(m, a) && !a.Stop? && m.phase == BLACKLISTING && m.s.e.rm != []
    ensures Do(m, a, keys).m.phase == BLACKLISTING
  {
  }

  /** Once a sync is under way, the nodes to remove are those it started with until an 'r'
      has been passed in the order, and then none. */
  predicate RemovalsTrack(m: Mgr, rm: seq<nat>) {
    m.offs <= |m.prios| &&
    (if m.phase == REMOVING then 'r' in m.prios[..m.offs]
     else if STARTING < m.phase <= BLACKLISTING then m.s.e.rm == (if 'r' in m.prios[..m.offs] then [] else rm)
     else m.phase == STARTING ==> m.s.e.rm == rm)
  }

  predicate WithinSync(acts: seq<Act>) {
    forall i :: 0 <= i < |acts| ==> !acts[i].Begin? && !acts[i].Stop? && !acts[i].Reload?
  }

  lemma ManageTracks(m: Mgr, rm: seq<nat>)
    requires ValidOrder(m.prios) && RemovalsTrack(m, rm)
    ensures RemovalsTrack(SetState(m).m, rm)
  {
    ManageStep(m);
    ManageKeepsLists(m);
    var n := SetState(m).m;
    var start := if m.phase == STARTING then m.(offs := 0) else m;
    hide SetState;
    if n != m && n.offs != m.offs && n.phase != CONFIGURED {
      assert Enters(start, n);
      if 'r' in m.prios[..n.offs] && 'r' !in start.prios[..start.offs] && n.phase != REMOVING {
        var i :| 0 <= i < n.offs && m.prios[i] == 'r';
        assert forall j :: 0 <= j < start.offs ==> start.prios[..start.offs][j] == m.prios[j];
        assert NothingFor(start, m.prios[i]);
      }
      if 'r' in start.prios[..start.offs] {
        var i :| 0 <= i < start.offs && m.prios[i] == 'r';
        assert m.prios[..n.offs][i] == 'r';
      }
    }
  }

  lemma OthersTrack(m: Mgr, a: Act, rm: seq<nat>, keys: seq<AppKey>)
    requires PhaseInv(m, keys) && Can(m, a) && !a.Manage? && !a.Begin? && !a.Stop? && !a.Reload?
    requires RemovalsTrack(m, rm)
    ensures RemovalsTrack(Do(m, a, keys).m, rm)
  {
    OthersStay(m, a, keys);
    if m.phase != REMOVING {
      OnlyRemovingRemoves(m, a, keys);
    }
    hide Inv, Next;
  }

  /** One act of a sync keeps track of the removals. */
  lemma ActTracks(m: Mgr, a: Act, rm: seq<nat>, keys: seq<AppKey>)
    requires PhaseInv(m, keys) && Can(m, a) && !a.Begin? && !a.Stop? && !a.Reload?
    requires RemovalsTrack(m, rm)
    ensures RemovalsTrack(Do(m, a, keys).m, rm)
  {
    hide RemovalsTrack, SetState;
    if a.Manage? {
      ManageTracks(m, rm);
    } else {
      OthersTrack(m, a, rm, keys);
    }
  }

  lemma {:induction false} SyncTracks(m: Mgr, rm: seq<nat>, acts: seq<Act>, keys: seq<AppKey>)
    requires PhaseInv(m, keys) && Acts(m, acts, keys) && WithinSync(acts) && RemovalsTrack(m, rm)
    ensures RemovalsTrack(Final(m, acts, keys), rm)
    decreases |acts|
  {
    hide PhaseInv, Do, RemovalsTrack;
    if acts != [] {
      var a := acts[0];
      assert !a.Begin? && !a.Stop? && !a.Reload?;
      ActKeeps(m, a, keys);
      ActTracks(m, a, rm, keys);
      hide Can, TameAct;
      SyncTracks(Do(m, a, keys).m, rm, acts[1..], keys);
    }
  }

  /** The blacklisting phase of a sync gets stuck exactly when there were nodes to remove at
      its start and the order has no 'r' before the place it has reached. */
  lemma BlacklistingBlocksExactly(m: Mgr, acts: seq<Act>, more: seq<Act>, keys: seq<AppKey>)
    requires PhaseInv(m, keys) && m.phase == STARTING && Acts(m, acts, keys) && WithinSync(acts)
    requires var t := Final(m, acts, keys);
             t.phase == BLACKLISTING && t.blIdle && Acts(t, more, keys) && NoStop(more)
    ensures var t := Final(m, acts, keys);
            var blocked := m.s.e.rm != [] && t.offs <= |t.prios| && 'r' !in t.prios[..t.offs];
            && (blocked ==> Final(t, more, keys).phase == BLACKLISTING)
            && (!blocked ==> SetState(t).m.phase != BLACKLISTING || SetState(t).m.offs > t.offs)
  {
    ActsKeep(m, acts, keys);
    SyncTracks(m, m.s.e.rm, acts, keys);
    var t := Final(m, acts, keys);
    if t.s.e.rm != [] {
      BlacklistingStuck(t, more, keys);
    } else {
      ManageStep(t);
    }
    hide Acts, Final, Inv, SetState;
  }

  /* Sessions of the nodes over any number of syncs */

  /** The steps a run of the manager is for the session of one node. */
  ghost function StepsFor(m: Mgr, acts: seq<Act>, keys: seq<AppKey>, id: nat): seq<S.Act>
    requires Acts(m, acts, keys)
    decreases |acts|
  {
    if acts == [] then []
    else
      var rest := StepsFor(Do(m, acts[0], keys).m, acts[1..], keys, id);
      if acts[0].Engine? && !acts[0].move.Join? && NodeOf(m.s, acts[0].move) == id
          then [ActOf(m.s, acts[0].move)] + rest
      else rest
  }

  /** Acts of the manager itself leave the sessions of all nodes as they are. */
  lemma ManagerIsNoStep(m: Mgr, a: Act, keys: seq<AppKey>, id: nat)
    requires Can(m, a) && !a.Engine? && Registered(m.s, id)
    ensures Registered(Do(m, a, keys).m.s, id)
    ensures SessionOf(Do(m, a, keys).m.s, id) == SessionOf(m.s, id)
  {
    if a.Manage? {
      ManageKeepsLists(m);
    }
    hide SetState;
  }

  lemma {:induction false} ActsProject(m: Mgr, acts: seq<Act>, keys: seq<AppKey>, id: nat)
    requires PhaseInv(m, keys) && Acts(m, acts, keys) && Registered(m.s, id)
    ensures Registered(Final(m, acts, keys).s, id)
    ensures Runs(SessionOf(m.s, id), StepsFor(m, acts, keys, id), keys)
    ensures After(SessionOf(m.s, id), StepsFor(m, acts, keys, id), keys) == SessionOf(Final(m, acts, keys).s, id)
    decreases |acts|
  {
    if acts != [] {
      var a := acts[0];
      ActKeeps(m, a, keys);
      hide Inv, Next, SessionOf;
      if a.Engine? {
        MoveIsStep(m.s, a.move, keys);
      } else {
        ManagerIsNoStep(m, a, keys, id);
      }
      assert a.Engine? ==> Do(m, a, keys).m.s == Next(m.s, a.move, keys).s && Tame(m.s, a.move, keys) && !a.move.Join?;
      hide PhaseInv, Can, TameAct, Do, Possible;
      ActsProject(Do(m, a, keys).m, acts[1..], keys, id);
      if a.Engine? && NodeOf(m.s, a.move) == id {
        PrependAct(SessionOf(m.s, id), ActOf(m.s, a.move), StepsFor(Do(m, a, keys).m, acts[1..], keys, id), keys);
      }
    }
  }

  /** Configured means configured over any number of syncs of all nodes: a node marked done
      that was not removed holds the whole configuration on its device. */
  lemma SyncsConfigure(m: Mgr, acts: seq<Act>, keys: seq<AppKey>, id: nat)
    requires Initial(m, keys) && Acts(m, acts, keys) && Registered(m.s, id)
    ensures Registered(Final(m, acts, keys).s, id)
    ensures var t := SessionOf(Final(m, acts, keys).s, id);
            t.n.done && !t.w.dev.wiped ==>
              AllBound(t.n, keys, t.w) && AllPublish(t.n, keys, t.w) && AllSubscribe(t.n, t.w) && AllFeatures(t.n, t.w)
  {
    InitialHolds(m, keys);
    assert Begins(SessionOf(m.s, id), keys);
    hide PhaseInv, Acts, SessionOf, Runs, After, Initial;
    ActsProject(m, acts, keys, id);
    ConfiguredMeansConfigured(SessionOf(m.s, id), StepsFor(m, acts, keys, id), keys);
  }
}
