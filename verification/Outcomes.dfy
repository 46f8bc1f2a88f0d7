/** What the lists of released nodes mean: a node that failed carries its error bit, and one that
    finished carries none. */
module Outcomes {
  import opened Bits
  import opened Mesh
  import opened Slot
  import opened Session
  import opened SessionSound
  import opened Engine
  import opened System
  import opened SystemRuns

  /** So it is for every node but those released before. */
  ghost predicate Recorded(s: Sys, before: set<nat>) {
    && (forall id :: id in s.e.fail && id !in before ==> id in s.e.nodes && s.e.nodes[id].err != 0)
    && (forall id :: id in s.finished && id !in before ==> id in s.e.nodes && s.e.nodes[id].err == 0)
  }

  /** A node in a slot is in neither list. */
  lemma SlotIsNoList(s: Sys, keys: seq<AppKey>, i: nat)
    requires Inv(s, keys) && i < |s.e.slots| && s.e.slots[i].node.Some?
    ensures s.e.slots[i].node.value !in s.e.fail && s.e.slots[i].node.value !in s.finished
  {
    var id := s.e.slots[i].node.value;
    InvParts(s, keys, id);
    hide Inv, Held, Tracked;
    HeldInSlot(s.e.slots, id);
    assert InSlot(s, id);
    assert Held(s.e.slots)[id] >= 1;
    assert (multiset(s.e.fail) + multiset(s.finished))[id] == 0;
  }

  /** What a visit of a slot does to the nodes and the lists. */
  lemma VisitForm(s: Sys, m: Move, keys: seq<AppKey>)
    requires m.Visit? && Possible(s, m) && Within(s.e.used, |s.e.slots|)
    ensures var id := NodeAt(s, m.i);
            var o := Pass(s.e.slots[m.i], s.e.nodes[id], keys, m.timeUp, m.ans);
            var t := Next(s, m, keys).s;
            && t.e.nodes == s.e.nodes[id := o.n]
            && t.e.fail == (if o.release == Freed(true) then s.e.fail + [id] else s.e.fail)
            && t.finished == (if o.release == Freed(false) then s.finished + [id] else s.finished)
  {
    hide Pass, Settle, Deliver, GuardFires, NewHandle, WithSent, Without;
  }

  lemma VisitRecords(s: Sys, m: Move, keys: seq<AppKey>, before: set<nat>)
    requires Inv(s, keys) && m.Visit? && Possible(s, m) && Within(s.e.used, |s.e.slots|)
    requires Tame(s, m, keys) && Recorded(s, before)
    ensures Recorded(Next(s, m, keys).s, before)
  {
    hide Inv, Next, Pass, Tame;
    VisitForm(s, m, keys);
    VisitPasses(s, m, keys);
    hide Possible;
  }

  lemma VisitPasses(s: Sys, m: Move, keys: seq<AppKey>)
    requires Inv(s, keys) && m.Visit? && Possible(s, m) && Tame(s, m, keys)
    ensures var id := NodeAt(s, m.i);
            var o := Pass(s.e.slots[m.i], s.e.nodes[id], keys, m.timeUp, m.ans);
            && id !in s.e.fail && id !in s.finished
            && (o.release == Freed(true) ==> o.n.err != 0) && (o.release == Freed(false) ==> o.n.err == 0)
  {
    hide Sound, Pass, Inv, CacheOf;
    SlotIsSound(s, m.i, keys);
    SlotIsNoList(s, keys, m.i);
    PassRecords(SessionOf(s, NodeAt(s, m.i)), keys, m.timeUp, m.ans);
  }

  lemma PassRecords(t: Session, keys: seq<AppKey>, timeUp: bool, ans: Answer)
    requires Sound(t, keys) && t.c.node.Some? && !(GuardFires(t.c, timeUp) && ans.OutOfMemory?)
    ensures var o := Pass(t.c, t.n, keys, timeUp, ans);
            (o.release == Freed(true) ==> o.n.err != 0) && (o.release == Freed(false) ==> o.n.err == 0)
  {
    PassSound(t, keys, timeUp, ans);
    hide Sound, Pass, InUse, OneErrorBit, AwaitsWhatWasSent;
  }

  lemma EndRecords(s: Sys, m: Move, keys: seq<AppKey>, before: set<nat>)
    requires Inv(s, keys) && m.EndEvent? && Possible(s, m) && Within(s.e.used, |s.e.slots|) && Recorded(s, before)
    ensures Recorded(Next(s, m, keys).s, before)
  {
    var slot := CacheFromHandle(s.e, s.e.used, m.h);
    if slot.Some? {
      SlotIsNoList(s, keys, slot.value);
    }
    hide Inv, Handle, SessionOf, Places, CacheFromHandle, Settle, Deliver, Legal;
  }

  lemma MoveRecords(s: Sys, m: Move, keys: seq<AppKey>, before: set<nat>)
    requires Inv(s, keys) && Possible(s, m) && Within(s.e.used, |s.e.slots|) && Tame(s, m, keys) && Recorded(s, before)
    ensures Recorded(Next(s, m, keys).s, before)
  {
    match m {
      case Visit(_, _, _, _) => VisitRecords(s, m, keys, before);
      case EndEvent(_, _, _, _) => EndRecords(s, m, keys, before);
      case _ =>
    }
    hide Inv, Tame, VisitSlot, TakeEnd, CacheFromHandle, Places;
  }

  lemma {:induction false} MovesRecord(s: Sys, moves: seq<Move>, keys: seq<AppKey>, before: set<nat>)
    requires Inv(s, keys) && Moves(s, moves, keys) && Recorded(s, before)
    ensures Recorded(EndOf(s, moves, keys), before)
    decreases |moves|
  {
    hide Inv, Next, Recorded;
    if moves != [] {
      MoveRecords(s, moves[0], keys, before);
      MoveKeeps(s, moves[0], keys);
      hide Possible, Tame;
      MovesRecord(Next(s, moves[0], keys).s, moves[1..], keys, before);
    }
  }

  /** However the slots interleave, a node that has come to the fail list carries an error bit,
      and one that has come to the finished nodes carries none. */
  lemma ListsTellTheOutcome(s: Sys, moves: seq<Move>, keys: seq<AppKey>, id: nat)
    requires Inv(s, keys) && Moves(s, moves, keys) && id !in s.e.fail && id !in s.finished
    ensures var t := EndOf(s, moves, keys);
            && (id in t.e.fail ==> id in t.e.nodes && t.e.nodes[id].err != 0)
            && (id in t.finished ==> id in t.e.nodes && t.e.nodes[id].err == 0)
  {
    var before := (set x | x in s.e.fail) + (set x | x in s.finished);
    MovesRecord(s, moves, keys, before);
    hide Inv, Moves, EndOf;
  }
}
