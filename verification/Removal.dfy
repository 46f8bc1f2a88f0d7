/** What the removal of a node means: when it ends, and what a release without an error then
    says about the device. */
module Removal {
  import opened Bits
  import opened Odometer
  import opened Mesh
  import opened Slot
  import opened Session
  import opened SessionRuns
  import opened Termination

  /** A node is being removed, and its reset awaited or to be sent again. */
  predicate Awaits(c: Cache) {
    && c.node.Some? && c.state == RM && c.next == RM && !Failed(c)
    && c.wait != c.oom && (c.armed ==> c.wait) && (c.ever ==> c.remaining <= RetryLimit(RM))
  }

  /* Over a whole removal */

  function Timeouts(log: seq<Entry>): nat {
    if log == [] then 0
    else Timeouts(log[..|log| - 1]) + (if log[|log| - 1] == Got(Reset, Timeout) then 1 else 0)
  }

  predicate LastIs(log: seq<Entry>, e: Entry) {
    |log| > 0 && log[|log| - 1] == e
  }

  lemma Logged(log: seq<Entry>, base: nat, e: Entry)
    requires base <= |log|
    ensures (log + [e])[base..] == log[base..] + [e]
    ensures LastIs((log + [e])[base..], e)
    ensures Timeouts((log + [e])[base..]) == Timeouts(log[base..]) + (if e == Got(Reset, Timeout) then 1 else 0)
  {
    assert (log[base..] + [e])[..|log| - base] == log[base..];
  }

  /** The slot of a node being removed, and what happened since it was loaded. */
  ghost predicate InRemoval(c: Cache, w: World, since: seq<Entry>) {
    && (w.out.Some? ==> w.out.value == Reset)
    && (w.out.Some? <==> c.wait)
    && (|| c == EMPTY
        || (c.node.Some? && c == LoadSlot(c.node.value, true) && since == [])
        || (Awaits(c) && LastIs(since, Sent(Reset)) && (c.ever ==> Timeouts(since) + c.remaining >= RetryLimit(RM)))
        || (RemovalOver(c) && RemovalMeant(w, since))
        || (RemovalFailed(c) && !LastIs(since, Got(Reset, Success)) && !LastIs(since, Got(Reset, Timeout))))
  }

  predicate RemovalOver(c: Cache) {
    c.node.Some? && c.state == RM && c.next == TO_NEXT && NoFlags(c) && !Failed(c)
  }

  predicate RemovalFailed(c: Cache) {
    c.node.Some? && c.state == RM && c.next == RM_END && NoFlags(c) && Failed(c)
  }

  /** The reset was acknowledged and carried out, or every one of its sends timed out. */
  predicate RemovalMeant(w: World, since: seq<Entry>) {
    || (LastIs(since, Got(Reset, Success)) && w.dev.wiped)
    || (LastIs(since, Got(Reset, Timeout)) && Timeouts(since) >= RetryLimit(RM) + 1)
  }

  ghost predicate BeingRemoved(s: Session, base: nat) {
    s.n.cfg.addr != 0 && base <= |s.w.log| && InRemoval(s.c, s.w, s.w.log[base..])
  }

  /** What the terminal event of the reset leaves of the slot. */
  lemma RemovalHandled(c: Cache, n: Node, keys: seq<AppKey>, which: nat, st: Status, ans: Answer)
    requires Awaits(c) && c.wait
    ensures var o := Handle(c, n, keys, which, st, ans);
            && o.n == n
            && if st == Success || (st == Timeout && c.ever && c.remaining == 0) then RemovalOver(o.c) && o.cmd.None?
               else if st == Timeout then
                 && o.cmd == Some(Reset)
                 && if ans.Refused? then RemovalFailed(o.c)
                    else
                      && Awaits(o.c) && (o.c.wait <==> ans.Accepted?)
                      && o.c.ever && o.c.remaining == RetriesLeft(c) - (if ans.Accepted? then 1 else 0)
               else RemovalFailed(o.c) && o.cmd.None?
  {
    SetBitOfZero(RM);
  }

  /** What a terminal event does to the session, in terms of what it does to the slot. */
  lemma ReplyForm(s: Session, st: Status, effect: bool, ans: Answer, keys: seq<AppKey>)
    requires Legal(s, Reply(st, effect, ans)) && Works(s.c.state)
    ensures var o := Handle(s.c, s.n, keys, WhichOf(s.w.out.value), st, ans);
            var t := Step(s, Reply(st, effect, ans), keys).s;
            && t.c == o.c && t.n == o.n
            && t.w.log == s.w.log + [Got(s.w.out.value, st)] + (if o.cmd.Some? then [Sent(o.cmd.value)] else [])
            && t.w.out == (if o.cmd.Some? && ans.Accepted? then o.cmd else None)
            && (st == Success ==> t.w.dev == Apply(s.w.dev, s.w.out.value))
  {
    hide Handle, Apply;
  }

  lemma ReplyWaits(s: Session, base: nat)
    requires BeingRemoved(s, base) && s.c.node.Some? && s.w.out.Some?
    ensures Awaits(s.c) && s.c.wait && Works(s.c.state) && s.w.out == Some(Reset)
    ensures s.c.ever ==> Timeouts(s.w.log[base..]) + s.c.remaining >= RetryLimit(RM)
  {
  }

  lemma ReplyInRemoval(s: Session, base: nat, st: Status, effect: bool, ans: Answer, keys: seq<AppKey>)
    requires BeingRemoved(s, base) && Legal(s, Reply(st, effect, ans))
    ensures Works(s.c.state) && BeingRemoved(Step(s, Reply(st, effect, ans), keys).s, base)
  {
    hide Handle, Timeouts, LastIs, Apply, Pass;
    ReplyWaits(s, base);
    ReplyForm(s, st, effect, ans, keys);
    RemovalHandled(s.c, s.n, keys, WhichOf(Reset), st, ans);
    var t := Step(s, Reply(st, effect, ans), keys).s;
    assert s.n.cfg.addr != 0 && base <= |s.w.log|;
    assert st == Success ==> t.w.dev.wiped by {
      ResetWipes(s.w.dev);
    }
    hide Step, InRemoval, Legal;
    Logged(s.w.log, base, Got(Reset, st));
    var log := s.w.log + [Got(Reset, st)];
    assert log + [] == log;
    if t.w.log == log {
      AfterEvent(t, base, st);
    } else {
      Logged(log, base, Sent(Reset));
      AfterSend(t, base);
    }
  }

  lemma ResetWipes(d: Device)
    ensures Apply(d, Reset).wiped
  {
  }

  /** A terminal event after which nothing was sent ended the removal or failed it. */
  lemma AfterEvent(t: Session, base: nat, st: Status)
    requires t.n.cfg.addr != 0 && base <= |t.w.log| && t.w.out.None? && LastIs(t.w.log[base..], Got(Reset, st))
    requires if st == Success then RemovalOver(t.c) && t.w.dev.wiped
             else if st == Timeout then RemovalOver(t.c) && Timeouts(t.w.log[base..]) >= RetryLimit(RM) + 1
             else RemovalFailed(t.c)
    ensures BeingRemoved(t, base)
  {
    hide Timeouts;
  }

  lemma AfterSend(t: Session, base: nat)
    requires t.n.cfg.addr != 0 && base <= |t.w.log| && LastIs(t.w.log[base..], Sent(Reset))
    requires (t.w.out.Some? <==> t.c.wait) && (t.w.out.Some? ==> t.w.out.value == Reset)
    requires RemovalFailed(t.c) || (Awaits(t.c)
             && (t.c.ever ==> Timeouts(t.w.log[base..]) + t.c.remaining >= RetryLimit(RM)))
    ensures BeingRemoved(t, base)
  {
    hide Timeouts;
  }

  /** What a pass leaves of the slot of a node being removed. */
  predicate PassForm(o: PassOut, c: Cache, n: Node, ans: Answer) {
    && o.ok && o.n.cfg == n.cfg
    && (o.cmd.Some? ==> o.cmd.value == Reset)
    && (o.release == Freed(false) <==> RemovalOver(c))
    && if o.release.Freed? then o.c == EMPTY && (o.cmd.None? ==> !c.wait) && (o.cmd.Some? ==> ans.Refused?)
       else if o.cmd.None? then o.c == c && c.wait
       else
         && !ans.Refused? && Awaits(o.c) && (ans.Accepted? ==> o.c.wait) && (o.c.wait <==> ans.Accepted?)
         && o.c.ever == (Awaits(c) && c.ever) && (o.c.ever ==> o.c.remaining == c.remaining)
  }

  lemma StartForm(c: Cache, n: Node, keys: seq<AppKey>, timeUp: bool, ans: Answer)
    requires c.node.Some? && c == LoadSlot(c.node.value, true) && n.cfg.addr != 0
    ensures PassForm(Pass(c, n, keys, timeUp, ans), c, n, ans)
  {
    SetBitOfZero(END);
  }

  lemma AwaitForm(c: Cache, n: Node, keys: seq<AppKey>, timeUp: bool, ans: Answer)
    requires Awaits(c) && !(GuardFires(c, timeUp) && ans.OutOfMemory?)
    ensures PassForm(Pass(c, n, keys, timeUp, ans), c, n, ans)
    ensures Pass(c, n, keys, timeUp, ans).cmd.Some? <==> GuardFires(c, timeUp) || c.oom
  {
    SetBitOfZero(RM);
  }

  lemma AwaitsOn(c: Cache, n: Node, keys: seq<AppKey>, timeUp: bool, ans: Answer)
    requires Awaits(c)
    ensures Pass(c, n, keys, timeUp, ans).release != Freed(false)
  {
    SetBitOfZero(RM);
  }

  lemma EndForm(c: Cache, n: Node, keys: seq<AppKey>, timeUp: bool, ans: Answer)
    requires RemovalOver(c) || RemovalFailed(c)
    ensures PassForm(Pass(c, n, keys, timeUp, ans), c, n, ans)
    ensures Pass(c, n, keys, timeUp, ans).release.Freed? && Pass(c, n, keys, timeUp, ans).cmd.None?
    ensures RemovalOver(c) ==> Pass(c, n, keys, timeUp, ans).n == n.(err := 0, done := false)
  {
  }

  /** The terminal event of the reset ends the removal exactly when it is a success or a
      timeout after the last retry; the next pass then releases the slot without an error,
      as it does for nothing else. */
  lemma RemovalEndsExactly(c: Cache, n: Node, keys: seq<AppKey>, which: nat, st: Status, ans: Answer, timeUp: bool,
                           later: Answer)
    requires Awaits(c) && c.wait
    ensures var o := Handle(c, n, keys, which, st, ans);
            && (o.c.next == TO_NEXT <==> st == Success || (st == Timeout && c.ever && c.remaining == 0))
            && (o.c.next == TO_NEXT <==> Pass(o.c, n, keys, timeUp, later).release == Freed(false))
            && (o.c.next == TO_NEXT ==> Pass(o.c, n, keys, timeUp, later).n == n.(err := 0, done := false))
  {
    hide Handle, Pass;
    RemovalHandled(c, n, keys, which, st, ans);
    var o := Handle(c, n, keys, which, st, ans);
    if RemovalOver(o.c) || RemovalFailed(o.c) {
      EndForm(o.c, n, keys, timeUp, later);
    } else {
      AwaitsOn(o.c, n, keys, timeUp, later);
    }
  }

  lemma PassKeepsForm(s: Session, act: Act, o: PassOut, base: nat, keys: seq<AppKey>)
    requires BeingRemoved(s, base) && act.EnginePass? && Legal(s, act)
    requires o == Pass(s.c, s.n, keys, act.timeUp, act.ans) && PassForm(o, s.c, s.n, act.ans)
    requires o.cmd.Some? ==> GuardFires(s.c, act.timeUp) || !s.c.wait
    requires GuardFires(s.c, act.timeUp) ==> o.cmd.Some?
    ensures BeingRemoved(Step(s, act, keys).s, base)
  {
    hide Pass, Timeouts, LastIs, RemovalMeant;
    Logged(s.w.log, base, Sent(Reset));
    var t := Step(s, act, keys).s;
    if o.cmd.Some? {
      assert t.w.log == s.w.log + [Sent(Reset)];
    } else {
      assert t.w == s.w;
    }
  }

  lemma PassInRemoval(s: Session, base: nat, act: Act, keys: seq<AppKey>)
    requires BeingRemoved(s, base) && act.EnginePass? && Legal(s, act) && Benign(s, act, keys)
    ensures BeingRemoved(Step(s, act, keys).s, base)
    ensures Step(s, act, keys).release == Freed(false) <==> RemovalOver(s.c)
  {
    if Awaits(s.c) {
      AwaitForm(s.c, s.n, keys, act.timeUp, act.ans);
    } else if RemovalOver(s.c) || RemovalFailed(s.c) {
      EndForm(s.c, s.n, keys, act.timeUp, act.ans);
    } else {
      StartForm(s.c, s.n, keys, act.timeUp, act.ans);
    }
    hide Timeouts, Pass, LastIs, RemovalMeant, PassForm;
    PassKeepsForm(s, act, Pass(s.c, s.n, keys, act.timeUp, act.ans), base, keys);
    hide BeingRemoved;
  }

  lemma {:induction false} RemovalRun(s: Session, base: nat, acts: seq<Act>, keys: seq<AppKey>)
    requires BeingRemoved(s, base) && Runs(s, acts, keys) && NoLoad(acts)
    ensures BeingRemoved(After(s, acts, keys), base)
    decreases |acts|
  {
    hide BeingRemoved;
    if acts != [] {
      match acts[0] {
        case Load(_, _) => assert false;
        case EnginePass(_, _, _) => PassInRemoval(s, base, acts[0], keys);
        case Page => NoPage(s, base);
        case Reply(st, effect, ans) => ReplyInRemoval(s, base, st, effect, ans, keys);
      }
      hide Step, Legal, Benign;
      RemovalRun(Step(s, acts[0], keys).s, base, acts[1..], keys);
    }
  }

  lemma NoPage(s: Session, base: nat)
    requires BeingRemoved(s, base)
    ensures !Legal(s, Page)
  {
  }

  /** A node handed over for removal is released without an error exactly when the last thing
      that happened is a success of the reset or a timeout of it; then the device was wiped, or
      the reset timed out once for the first send and once for every retry. */
  lemma ReleasedMeansRemovedOrGivenUp(s: Session, id: nat, acts: seq<Act>, pass: Act, keys: seq<AppKey>)
    requires s.c == EMPTY && s.w.out.None? && s.n.cfg.addr != 0
    requires var t0 := Step(s, Load(id, true), keys).s;
             && Runs(t0, acts, keys) && NoLoad(acts)
             && var t := After(t0, acts, keys);
                pass.EnginePass? && Legal(t, pass) && Benign(t, pass, keys)
    ensures var t := After(Step(s, Load(id, true), keys).s, acts, keys);
            && |s.w.log| <= |t.w.log|
            && var since := t.w.log[|s.w.log|..];
               && (Step(t, pass, keys).release == Freed(false) <==>
                     LastIs(since, Got(Reset, Success)) || LastIs(since, Got(Reset, Timeout)))
               && (LastIs(since, Got(Reset, Success)) ==> t.w.dev.wiped)
               && (LastIs(since, Got(Reset, Timeout)) ==> Timeouts(since) >= 4)
  {
    var t0 := Step(s, Load(id, true), keys).s;
    RemovalRun(t0, |s.w.log|, acts, keys);
    var t := After(t0, acts, keys);
    hide Runs, After, Benign;
    PassInRemoval(t, |s.w.log|, pass, keys);
    hide Step, Timeouts;
  }

  /* A node that cannot be reached */

  lemma {:induction false} LostRuns(s: Session, keys: seq<AppKey>)
    requires Awaits(s.c) && s.c.wait && s.w.out == Some(Reset)
    ensures Runs(s, Lost(RetriesLeft(s.c) + 1), keys) && NoLoad(Lost(RetriesLeft(s.c) + 1))
    ensures var t := After(s, Lost(RetriesLeft(s.c) + 1), keys);
            RemovalOver(t.c) && t.w.dev == s.w.dev
    decreases RetriesLeft(s.c)
  {
    var act := Reply(Timeout, false, Accepted(0));
    var t := Step(s, act, keys).s;
    RemovalHandled(s.c, s.n, keys, WhichOf(Reset), Timeout, Accepted(0));
    assert t.w.dev == s.w.dev;
    assert Legal(s, act) && Benign(s, act, keys);
    var rest := Lost(RetriesLeft(s.c));
    assert Lost(RetriesLeft(s.c) + 1)[0] == act && Lost(RetriesLeft(s.c) + 1)[1..] == rest;
    hide Handle, Legal, Benign;
    if RetriesLeft(s.c) > 0 {
      LostRuns(t, keys);
    }
  }

  /** Any node whose reset is lost every time, its device never hearing of it, is released
      without an error all the same. */
  lemma UnreachableNodeIsReleased(s: Session, id: nat, keys: seq<AppKey>)
    requires s.c == EMPTY && s.w.out.None? && s.n.cfg.addr != 0
    ensures var t0 := Step(s, Load(id, true), keys).s;
            var acts := [EnginePass(false, Accepted(0), false)] + Lost(4);
            && Runs(t0, acts, keys) && NoLoad(acts)
            && var t := After(t0, acts, keys);
               && t.w.dev == s.w.dev && t.c.node.Some?
               && Step(t, EnginePass(false, Accepted(0), false), keys).release == Freed(false)
  {
    var pass := EnginePass(false, Accepted(0), false);
    var t0 := Step(s, Load(id, true), keys).s;
    StartForm(t0.c, t0.n, keys, false, Accepted(0));
    var t1 := Step(t0, pass, keys).s;
    assert Pass(t0.c, t0.n, keys, false, Accepted(0)).cmd.Some?;
    hide Pass;
    assert t1.w.dev == s.w.dev && Awaits(t1.c) && t1.c.wait && RetriesLeft(t1.c) == RetryLimit(RM);
    assert t1.w.out == Some(Reset);
    LostRuns(t1, keys);
    var acts := [pass] + Lost(RetryLimit(RM) + 1);
    assert acts[1..] == Lost(RetryLimit(RM) + 1);
    var t := After(t0, acts, keys);
    EndForm(t.c, t.n, keys, false, Accepted(0));
  }
}
