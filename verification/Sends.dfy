/** How often a command is sent: the entries the log of a device gains. */
module Sends {
  import opened Bits
  import opened Mesh
  import opened Slot
  import opened Session
  import opened SessionSound
  import opened SessionRuns
  import opened Termination

  /** The commands sent that the log shows. */
  function SentCount(log: seq<Entry>): nat {
    if log == [] then 0 else SentCount(log[..|log| - 1]) + (if log[|log| - 1].Sent? then 1 else 0)
  }

  lemma SentGrows(log: seq<Entry>, e: Entry)
    ensures SentCount(log + [e]) == SentCount(log) + (if e.Sent? then 1 else 0)
  {
    assert (log + [e])[..|log|] == log;
  }

  /** The command the step sends, if it sends one. */
  function CommandOf(s: Session, act: Act, keys: seq<AppKey>): Option<Command>
    requires Legal(s, act)
    requires act.Reply? ==> Works(s.c.state)
  {
    match act
    case EnginePass(timeUp, ans, _) => Pass(s.c, s.n, keys, timeUp, ans).cmd
    case Reply(st, _, ans) => Handle(s.c, s.n, keys, WhichOf(s.w.out.value), st, ans).cmd
    case _ => None
  }

  function AnswerTo(act: Act): Answer {
    if act.EnginePass? || act.Reply? then act.ans else Refused
  }

  /** The step resends because of the guard timer. */
  function OnGuard(s: Session, act: Act): nat {
    if act.EnginePass? && GuardFires(s.c, act.timeUp) then 1 else 0
  }

  /** The step sends a command that the NCP does not accept; a timeout whose resend meets
      out-of-memory keeps its retry and counts twice. */
  function Unaccepted(s: Session, act: Act, keys: seq<AppKey>): nat
    requires Legal(s, act)
    requires act.Reply? ==> Works(s.c.state)
  {
    if CommandOf(s, act, keys).None? || AnswerTo(act).Accepted? then 0
    else if act.Reply? && act.st == Timeout && act.ans.OutOfMemory? then 2
    else 1
  }

  lemma StepLogs(s: Session, act: Act, keys: seq<AppKey>)
    requires Legal(s, act)
    requires act.Reply? ==> Works(s.c.state)
    ensures SentCount(Step(s, act, keys).s.w.log)
            == SentCount(s.w.log) + (if CommandOf(s, act, keys).Some? then 1 else 0)
  {
    hide Pass, Handle, SentCount;
    if act.Reply? {
      SentGrows(s.w.log, Got(s.w.out.value, act.st));
    }
    if CommandOf(s, act, keys).Some? {
      var log := if act.Reply? then s.w.log + [Got(s.w.out.value, act.st)] else s.w.log;
      SentGrows(log, Sent(CommandOf(s, act, keys).value));
    }
  }

  /** The sends the slot may still make when each is accepted: one for every answer it may
      still take, but for the one it awaits. */
  function Allowance(s: Session, keys: seq<AppKey>): int {
    SessionBudget(s, keys) - (if s.c.wait then 1 else 0)
  }

  lemma PassAllows(s: Session, act: Act, keys: seq<AppKey>)
    requires Sound(s, keys) && act.EnginePass? && Legal(s, act) && Benign(s, act, keys)
    ensures (if CommandOf(s, act, keys).Some? then 1 else 0) + Allowance(Step(s, act, keys).s, keys)
         <= Allowance(s, keys) + OnGuard(s, act) + Unaccepted(s, act, keys)
  {
    PassSound(s, keys, act.timeUp, act.ans);
    PassSpends(s, keys, act.timeUp, act.ans);
    if s.w.out.Some? {
      WaitingHasBudget(s, keys);
    }
    hide Pass, Budget, InUse, WellConfigured, OneErrorBit, CommandFor;
  }

  lemma ReplyAllows(s: Session, act: Act, keys: seq<AppKey>)
    requires Sound(s, keys) && act.Reply? && Legal(s, act) && Benign(s, act, keys) && Works(s.c.state)
    ensures (if CommandOf(s, act, keys).Some? then 1 else 0) + Allowance(Step(s, act, keys).s, keys)
         <= Allowance(s, keys) + Unaccepted(s, act, keys)
  {
    Awaiting(s, keys);
    var which := WhichOf(s.w.out.value);
    ReplySpends(s.c, s.n, keys, s.w.comp, which, act.st, act.ans);
    ReplySound(s.c, s.n, keys, s.w.comp, which, act.st, act.ans);
    hide Handle, Budget, Active, Sound, WellConfigured, OneErrorBit, CommandFor, Over, Faulted;
  }

  lemma StepAllows(s: Session, act: Act, keys: seq<AppKey>)
    requires Sound(s, keys) && Legal(s, act) && Benign(s, act, keys) && !act.Load?
    requires act.Reply? ==> Works(s.c.state)
    ensures SentCount(Step(s, act, keys).s.w.log) + Allowance(Step(s, act, keys).s, keys)
         <= SentCount(s.w.log) + Allowance(s, keys) + OnGuard(s, act) + Unaccepted(s, act, keys)
  {
    StepLogs(s, act, keys);
    hide Sound, Pass, Handle, Benign;
    match act {
      case EnginePass(_, _, _) => PassAllows(s, act, keys);
      case Page => PageAllows(s, keys);
      case Reply(_, _, _) => ReplyAllows(s, act, keys);
    }
  }

  lemma PageAllows(s: Session, keys: seq<AppKey>)
    requires Sound(s, keys) && Legal(s, Page)
    ensures Allowance(Step(s, Page, keys).s, keys) <= Allowance(s, keys)
  {
    Awaiting(s, keys);
    PageSpends(s.c, s.n, keys, s.w.comp);
    hide Budget, Sound;
  }

  /** Every resend of the guard timer goes with a send before it, which armed the timer. */
  lemma StepArms(s: Session, act: Act, keys: seq<AppKey>)
    requires Sound(s, keys) && Legal(s, act) && Benign(s, act, keys) && !act.Load?
    requires act.Reply? ==> Works(s.c.state)
    ensures var t := Step(s, act, keys).s;
            2 * OnGuard(s, act) + B2I(t.c.armed) + SentCount(s.w.log) <= B2I(s.c.armed) + SentCount(t.w.log)
  {
    StepLogs(s, act, keys);
    match act {
      case EnginePass(timeUp, ans, _) =>
        PassSound(s, keys, timeUp, ans);
        if GuardFires(s.c, timeUp) {
          GuardDisarms(s.c, s.n, keys, s.w.comp, ans);
        }
        hide Pass, InUse, WellConfigured, OneErrorBit, CommandFor, SentCount;
      case Page =>
      case Reply(st, _, ans) =>
        Awaiting(s, keys);
        ReplySound(s.c, s.n, keys, s.w.comp, WhichOf(s.w.out.value), st, ans);
        hide Handle, Sound, WellConfigured, OneErrorBit, CommandFor, SentCount;
    }
  }

  lemma GuardDisarms(c: Cache, n: Node, keys: seq<AppKey>, comp: seq<Element>, ans: Answer)
    requires InUse(c, n, keys, comp) && GuardFires(c, true) && !ans.OutOfMemory?
    ensures !Pass(c, n, keys, true, ans).c.armed
  {
    assert Active(c, n, keys, comp);
    GuardRetrySound(c, n, keys, comp, ans);
    hide CommandFor, Guard, ToNextState;
    if ans.Refused? {
      FaultedEnds(Retry(c, n, keys, OnGuardTimer, ans).c, n, keys, ans);
      hide Retry;
    }
  }

  /* Over whole runs */

  /** The resends of the guard timer in a run, and the sends that are not accepted. */
  ghost function GuardResends(s: Session, acts: seq<Act>, keys: seq<AppKey>): nat
    requires Runs(s, acts, keys)
    decreases |acts|
  {
    if acts == [] then 0 else OnGuard(s, acts[0]) + GuardResends(Step(s, acts[0], keys).s, acts[1..], keys)
  }

  ghost function UnacceptedSends(s: Session, acts: seq<Act>, keys: seq<AppKey>): nat
    requires Runs(s, acts, keys)
    decreases |acts|
  {
    if acts == [] then 0 else Unaccepted(s, acts[0], keys) + UnacceptedSends(Step(s, acts[0], keys).s, acts[1..], keys)
  }

  lemma {:induction false} RunAllows(s: Session, acts: seq<Act>, keys: seq<AppKey>)
    requires Sound(s, keys) && Runs(s, acts, keys) && NoLoad(acts)
    ensures var t := After(s, acts, keys);
            && Sound(t, keys)
            && SentCount(t.w.log) + Allowance(t, keys)
               <= SentCount(s.w.log) + Allowance(s, keys) + GuardResends(s, acts, keys) + UnacceptedSends(s, acts, keys)
            && 2 * GuardResends(s, acts, keys) + B2I(t.c.armed) + SentCount(s.w.log)
               <= B2I(s.c.armed) + SentCount(t.w.log)
    decreases |acts|
  {
    hide Sound, Allowance, SentCount, OnGuard, Unaccepted;
    if acts != [] {
      assert !acts[0].Load?;
      StepSound(s, acts[0], keys);
      StepAllows(s, acts[0], keys);
      StepArms(s, acts[0], keys);
      hide Step, Legal, Benign;
      RunAllows(Step(s, acts[0], keys).s, acts[1..], keys);
    }
  }

  /** Between two points at which the same work item is awaited it is sent at most once for
      every retry used up in between, once for every guard timer that expired, and once or
      twice for every send that was not accepted. */
  lemma SendsOfAnItem(s: Session, acts: seq<Act>, keys: seq<AppKey>)
    requires Sound(s, keys) && Runs(s, acts, keys) && NoLoad(acts)
    requires var t := After(s, acts, keys);
             && s.w.out.Some? && t.w.out.Some?
             && t.c.state == s.c.state && t.c.it == s.c.it && t.n == s.n
    ensures var t := After(s, acts, keys);
            && RetriesLeft(s.c) <= (if s.c.state == RM then 3 else 5)
            && SentCount(t.w.log) - SentCount(s.w.log)
               <= RetriesLeft(s.c) - RetriesLeft(t.c) + GuardResends(s, acts, keys) + UnacceptedSends(s, acts, keys)
  {
    RunAllows(s, acts, keys);
    SoundAfter(s, acts, keys);
    var t := After(s, acts, keys);
    Awaiting(s, keys);
    Awaiting(t, keys);
    hide Runs, After, Sound, SentCount;
    SameItemBudgets(s.c, t.c, s.n, keys, s.w.comp);
    hide Active, Budget;
  }

  lemma SameItemBudgets(c: Cache, d: Cache, n: Node, keys: seq<AppKey>, comp: seq<Element>)
    requires Active(c, n, keys, comp) && Active(d, n, keys, comp) && c.state == d.state && c.it == d.it
    ensures Budget(c, n, keys, comp) - RetriesLeft(c) == Budget(d, n, keys, comp) - RetriesLeft(d)
  {
    ActiveHasItem(c, n, keys, comp);
    ActiveHasItem(d, n, keys, comp);
    assert ItemsLeft(c.state, c.it, c.dcd, n, keys) == ItemsLeft(d.state, d.it, d.dcd, n, keys);
    hide ItemsLeft, Ready, Guard, Budget;
  }

  /** From its load to its release a node is sent at most one command for the first send and
      every retry of every work item, apart from guard-timer resends, of which each goes with a
      send before it, and from sends that were not accepted. */
  lemma SendsAreBounded(s: Session, id: nat, removing: bool, acts: seq<Act>, keys: seq<AppKey>)
    requires Sound(s, keys) && Legal(s, Load(id, removing))
    requires var t := Step(s, Load(id, removing), keys).s; Runs(t, acts, keys) && NoLoad(acts)
    ensures var t := Step(s, Load(id, removing), keys).s;
            var sent := SentCount(After(t, acts, keys).w.log) - SentCount(s.w.log);
            var work := Work(if removing then RM else GET_DCD, s.n, keys, s.w.comp);
            && sent <= work + GuardResends(t, acts, keys) + UnacceptedSends(t, acts, keys)
            && 2 * GuardResends(t, acts, keys) <= sent
            && sent <= 2 * (work + UnacceptedSends(t, acts, keys))
  {
    var t := Step(s, Load(id, removing), keys).s;
    StepSound(s, Load(id, removing), keys);
    RunAllows(t, acts, keys);
    var u := After(t, acts, keys);
    hide Work, Runs, After, SentCount;
    if u.w.out.Some? {
      WaitingHasBudget(u, keys);
    }
    hide Sound;
  }
}
