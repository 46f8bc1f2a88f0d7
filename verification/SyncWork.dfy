/** What a sync leaves: when the manager comes back to configured, the lists of every letter in
    its order before a '-' are empty and no slot is in use. */
module SyncWork {
  import opened Bits
  import opened Mesh
  import opened Engine
  import opened System
  import opened Phases
  import opened PhaseRuns

  /* One manager step, in the lists and the order themselves */

  /** What keeps the manager in its phase: nodes to provision; nodes to configure or to remove, or
      slots in use; nodes to remove, or the blacklisting procedure at work. */
  predicate Busy(m: Mgr) {
    || (m.phase == ADDING && |m.add| > 0)
    || (m.phase == CONFIGURING && (|m.s.e.config| > 0 || m.s.e.used != 0))
    || (m.phase == REMOVING && (|m.s.e.rm| > 0 || m.s.e.used != 0))
    || (m.phase == BLACKLISTING && (|m.s.e.rm| > 0 || !m.blIdle))
  }

  /** The phase a letter of the order asks for, by what the lists hold. */
  function Asked(m: Mgr, letter: char): Option<nat> {
    if letter == 'a' && |m.add| > 0 then Some(ADDING)
    else if letter == 'a' && |m.s.e.config| > 0 then Some(CONFIGURING)
    else if letter == 'r' && |m.s.e.rm| > 0 then Some(REMOVING)
    else if letter == 'b' && |m.bl| > 0 then Some(BLACKLISTING)
    else None
  }

  /** The manager goes from place `from` of the order to place k: the letters on the way ask for
      nothing and none of them is a '-'. */
  predicate Passes(m: Mgr, from: nat, k: nat) {
    from <= k <= 3 && |m.prios| == 3 && forall i :: from <= i < k ==> m.prios[i] != '-' && Asked(m, m.prios[i]) == None
  }

  /** From a place on nothing is asked for before the end of the order or a '-'. */
  ghost predicate NothingAsked(m: Mgr, from: nat) {
    from >= 3 || exists k: nat :: Passes(m, from, k) && (k == 3 || m.prios[k] == '-')
  }

  /** A manager that is busy, or not at work, stays as it is.  Adding gives way to configuring
      when nodes or slots are left to configure.  Otherwise the phase is the one asked for by the
      first letter of the order, behind the place reached, that asks for any; and configured when
      there is none before the end or a '-'. */
  lemma ManageExactly(m: Mgr)
    requires ValidOrder(m.prios)
    ensures var n := SetState(m).m;
            var from := if m.phase == STARTING then 0 else m.offs;
            if !(STARTING <= m.phase <= BLACKLISTING) || Busy(m) then n == m
            else if m.phase == ADDING && (|m.s.e.config| > 0 || m.s.e.used != 0) then n == m.(phase := CONFIGURING)
            else
              || (n == m.(phase := CONFIGURED, offs := 0) && NothingAsked(m, from))
              || (n == m.(phase := n.phase, offs := n.offs) && n.offs > 0
                  && Passes(m, from, n.offs - 1) && n.offs <= 3
                  && Asked(m, m.prios[n.offs - 1]) == Some(n.phase))
  {
    ManageStep(m);
    var n := SetState(m).m;
    var start := if m.phase == STARTING then m.(offs := 0) else m;
    hide SetState;
    if STARTING <= m.phase <= BLACKLISTING && !Busy(m)
       && !(m.phase == ADDING && (|m.s.e.config| > 0 || m.s.e.used != 0)) {
      assert PhaseDone(m);
      if n.phase == CONFIGURED {
        if start.offs < 3 {
          var k: nat :| Skips(start, start.offs, k) && (k == |start.prios| || start.prios[k] == '-');
          SkipsPasses(m, start, k);
          assert k == 3 || m.prios[k] == '-';
        }
        assert NothingAsked(m, start.offs);
      } else {
        SkipsPasses(m, start, n.offs - 1);
      }
    }
  }

  lemma SkipsPasses(m: Mgr, start: Mgr, k: nat)
    requires ValidOrder(m.prios) && start == m.(offs := start.offs) && Skips(start, start.offs, k)
    ensures Passes(m, start.offs, k)
  {
    forall i | start.offs <= i < k
      ensures m.prios[i] != '-' && Asked(m, m.prios[i]) == None
    {
      assert start.prios[i] in "arb" && NothingFor(start, start.prios[i]);
    }
  }

  /** The ASSERT on the order fires exactly for a letter that is none of 'a', 'r', 'b' and '-' and
      that the manager comes to. */
  lemma {:induction false} OrderAbortsExactly(m: Mgr)
    requires |m.prios| == 3
    ensures !NextPhase(m).ok <==>
              exists k :: m.offs <= k < 3 && m.prios[k] !in "arb-"
                && forall i :: m.offs <= i < k ==> m.prios[i] in "arb" && Asked(m, m.prios[i]) == None
    decreases 3 - m.offs
  {
    if m.offs < 3 && m.prios[m.offs] in "arb" && Asked(m, m.prios[m.offs]) == None {
      var n := m.(offs := m.offs + 1);
      OrderAbortsExactly(n);
      assert forall c :: Asked(n, c) == Asked(m, c);
      assert NextPhase(m) == NextPhase(n);
      hide NextPhase, Asked;
    } else if m.offs < 3 {
      assert NextPhase(m).ok <==> m.prios[m.offs] in "arb-";
      hide NextPhase, Asked;
    }
  }

  /** A node provisioned leaves the list of nodes to add, once, and is the last to be configured. */
  lemma ProvisionedIsHandedOver(m: Mgr, id: nat, keys: seq<AppKey>)
    requires Can(m, Provisioned(id))
    ensures var n := Do(m, Provisioned(id), keys).m;
            && multiset(m.add) == multiset(n.add) + multiset{id} && n.s.e.config == m.s.e.config + [id]
            && n == m.(add := n.add, s := m.s.(e := m.s.e.(config := n.s.e.config)))
  {
  }

  /* A whole sync */

  /** The work of the letters passed is done: nothing is left to provision, configure or remove. */
  predicate NothingBehind(m: Mgr) {
    STARTING < m.phase <= BLACKLISTING ==>
      && m.offs <= |m.prios|
      && (m.phase == CONFIGURING ==> m.add == [])
      && (forall i :: 0 <= i < m.offs && m.prios[i] == 'a' ==>
            (m.add == [] && m.s.e.config == []) || (i == m.offs - 1 && ADDING <= m.phase <= CONFIGURING))
      && (forall i :: 0 <= i < m.offs && m.prios[i] == 'r' ==>
            m.s.e.rm == [] || (i == m.offs - 1 && m.phase == REMOVING))
  }

  lemma ManageLeavesNothing(m: Mgr)
    requires ValidOrder(m.prios) && NothingBehind(m)
    ensures NothingBehind(SetState(m).m)
  {
    ManageExactly(m);
    hide SetState;
  }

  lemma OthersLeaveNothing(m: Mgr, a: Act, keys: seq<AppKey>)
    requires PhaseInv(m, keys) && Can(m, a) && !a.Manage? && NothingBehind(m)
    ensures NothingBehind(Do(m, a, keys).m)
  {
    hide Inv, Next, Held;
    if a.Provisioned? {
      assert m.add != [];
    } else if a.Engine? && m.phase >= STARTING {
      MoveShrinks(m, a.move, keys);
    }
  }

  lemma MoveShrinks(m: Mgr, move: Move, keys: seq<AppKey>)
    requires InPhase(m.phase, move) && Possible(m.s, move) && Within(m.s.e.used, |m.s.e.slots|)
    ensures var e := Next(m.s, move, keys).s.e;
            (m.s.e.config == [] ==> e.config == []) && (m.s.e.rm == [] ==> e.rm == [])
  {
  }

  lemma {:induction false} ActsLeaveNothing(m: Mgr, acts: seq<Act>, keys: seq<AppKey>)
    requires PhaseInv(m, keys) && Acts(m, acts, keys) && NothingBehind(m)
    ensures NothingBehind(Final(m, acts, keys)) && PhaseInv(Final(m, acts, keys), keys)
    decreases |acts|
  {
    hide PhaseInv, Do, NothingBehind;
    if acts != [] {
      ActKeeps(m, acts[0], keys);
      if acts[0].Manage? {
        assert ValidOrder(m.prios) by {
          OrderIsValid(m, keys);
        }
        ManageLeavesNothing(m);
        assert Do(m, acts[0], keys).m == SetState(m).m by {
          ManageIsSetState(m, keys);
        }
      } else {
        OthersLeaveNothing(m, acts[0], keys);
      }
      hide Can, TameAct;
      ActsLeaveNothing(Do(m, acts[0], keys).m, acts[1..], keys);
    }
  }

  lemma OrderIsValid(m: Mgr, keys: seq<AppKey>)
    requires PhaseInv(m, keys)
    ensures ValidOrder(m.prios)
  {
  }

  lemma ManageIsSetState(m: Mgr, keys: seq<AppKey>)
    ensures Do(m, Manage, keys) == SetState(m)
  {
  }

  /** A sync does its work: stopped or not, at the manager step that brings it
      back to configured nothing is left to provision or configure for any 'a' of the order and
      nothing to remove for any 'r', up to the first '-', and no slot is in use. */
  lemma SyncLeavesNoWork(m: Mgr, acts: seq<Act>, keys: seq<AppKey>, i: nat)
    requires PhaseInv(m, keys) && m.phase == STARTING && Acts(m, acts, keys)
    requires var t := Final(m, acts, keys);
             STARTING <= t.phase <= BLACKLISTING && SetState(t).m.phase == CONFIGURED
    ensures var t := SetState(Final(m, acts, keys)).m;
            && (i < |t.prios| && '-' !in t.prios[..i + 1] ==>
                  (t.prios[i] == 'a' ==> t.add == [] && t.s.e.config == []) && (t.prios[i] == 'r' ==> t.s.e.rm == []))
            && (i < |t.s.e.slots| ==> t.s.e.slots[i].node.None?)
  {
    ActsLeaveNothing(m, acts, keys);
    var t := Final(m, acts, keys);
    ManageLeft(t, keys, i);
    hide Acts, Final, PhaseInv, SetState;
  }

  lemma ManageLeft(t: Mgr, keys: seq<AppKey>, i: nat)
    requires PhaseInv(t, keys) && NothingBehind(t)
    requires STARTING <= t.phase <= BLACKLISTING && SetState(t).m.phase == CONFIGURED
    ensures var n := SetState(t).m;
            && (i < |n.prios| && '-' !in n.prios[..i + 1] ==>
                  (n.prios[i] == 'a' ==> n.add == [] && n.s.e.config == []) && (n.prios[i] == 'r' ==> n.s.e.rm == []))
            && (i < |n.s.e.slots| ==> n.s.e.slots[i].node.None?)
  {
    hide Inv, NothingBehind;
    ActKeeps(t, Manage, keys);
    ManageIsSetState(t, keys);
    LettersDone(t, i);
    hide SetState;
    var n := SetState(t).m;
    if i < |n.s.e.slots| {
      assert KindFits(n.phase, n.s.e.slots[i]);
    }
  }

  lemma LettersDone(t: Mgr, i: nat)
    requires ValidOrder(t.prios) && NothingBehind(t)
    requires STARTING <= t.phase <= BLACKLISTING && SetState(t).m.phase == CONFIGURED
    ensures var n := SetState(t).m;
            i < |n.prios| && '-' !in n.prios[..i + 1] ==>
              (n.prios[i] == 'a' ==> n.add == [] && n.s.e.config == []) && (n.prios[i] == 'r' ==> n.s.e.rm == [])
  {
    ManageExactly(t);
    hide SetState;
    var n := SetState(t).m;
    var from := if t.phase == STARTING then 0 else t.offs;
    assert n == t.(phase := CONFIGURED, offs := 0) && NothingAsked(t, from);
    if i < |n.prios| && '-' !in n.prios[..i + 1] && i >= from {
      var k: nat :| Passes(t, from, k) && (k == 3 || t.prios[k] == '-');
      assert Asked(t, t.prios[i]) == None;
    }
  }
}
