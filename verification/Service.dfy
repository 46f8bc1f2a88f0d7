/** Nodes that are served: the NCP accepts every command, the device answers each with a
    success and no guard timer expires.  Such a node is configured. */
module Service {
  import opened Bits
  import opened Odometer
  import opened Mesh
  import opened Slot
  import opened Session
  import opened SessionSound
  import opened SessionRuns
  import opened SessionProgress
  import opened Termination

  predicate Serves(act: Act) {
    match act
    case Load(_, _) => false
    case EnginePass(timeUp, ans, _) => !timeUp && ans.Accepted?
    case Page => true
    case Reply(st, _, ans) => st == Success && ans.Accepted?
  }

  predicate AllServe(acts: seq<Act>) {
    forall i :: 0 <= i < |acts| ==> Serves(acts[i])
  }

  /** A configuration run on which nothing went wrong, or the node marked done at its end. */
  ghost predicate OnTheWay(s: Session, keys: seq<AppKey>) {
    && Sound(s, keys) && !s.w.dev.wiped
    && if s.c == EMPTY then s.n.done && s.n.err == 0 else ConfigRun(s.c) && !Failed(s.c) && !s.c.oom
  }

  lemma {:induction false} EntersOrEnds(s: int, c: Cache, n: Node, keys: seq<AppKey>, h: nat)
    requires GET_DCD <= s <= END
    ensures var o := Enter(s, c, n, keys, Accepted(h));
            && (Ended(o.c) ==> o.c.state == END)
            && o.c.bgcall == c.bgcall && o.c.bgevt == c.bgevt && o.c.oom == c.oom
    decreases RM_END - s
  {
    hide CommandFor, Guard;
    if s != END && !Guard(s, n) {
      EntersOrEnds(s + 1, c, n, keys, h);
    }
  }

  lemma PassOnTheWay(s: Session, keys: seq<AppKey>, h: nat, effect: bool)
    requires OnTheWay(s, keys) && s.c.node.Some?
    ensures OnTheWay(Step(s, EnginePass(false, Accepted(h), effect), keys).s, keys)
  {
    var act := EnginePass(false, Accepted(h), effect);
    StepSound(s, act, keys);
    PassForm(s.c, s.n, keys, s.w.comp, h);
    hide Pass, Sound;
  }

  lemma PassForm(c: Cache, n: Node, keys: seq<AppKey>, comp: seq<Element>, h: nat)
    requires InUse(c, n, keys, comp) && ConfigRun(c) && !Failed(c) && !c.oom && WellConfigured(n, comp, keys)
    ensures var o := Pass(c, n, keys, false, Accepted(h));
            if o.release.Freed? then o.c == EMPTY && o.n.done && o.n.err == 0
            else o.c != EMPTY && ConfigRun(o.c) && !Failed(o.c) && !o.c.oom
  {
    hide CommandFor, Guard, WellConfigured, Ready;
    if Over(c, comp) || Fresh(c) {
      var s := if c.next == TO_NEXT then c.state + 1 else c.next;
      OverMoves(c, n, keys, comp, Accepted(h));
      EntersFresh(s, c, n, keys, Accepted(h));
      EntersOrEnds(s, c, n, keys, h);
      hide Enter;
    } else {
      assert Active(c, n, keys, comp) && c.wait;
    }
  }

  lemma ReplyOnTheWay(s: Session, keys: seq<AppKey>, h: nat, effect: bool)
    requires OnTheWay(s, keys) && Legal(s, Reply(Success, effect, Accepted(h))) && s.c != EMPTY
    ensures Works(s.c.state) && OnTheWay(Step(s, Reply(Success, effect, Accepted(h)), keys).s, keys)
  {
    var act := Reply(Success, effect, Accepted(h));
    StepSound(s, act, keys);
    Awaiting(s, keys);
    NotReset(s, keys);
    SuccessForm(s.c, s.n, keys, WhichOf(s.w.out.value), h);
    hide Handle, Sound, Active, Apply;
  }

  lemma NotReset(s: Session, keys: seq<AppKey>)
    requires Sound(s, keys) && s.w.out.Some? && s.c.state < END
    ensures Apply(s.w.dev, s.w.out.value).wiped == s.w.dev.wiped
  {
    Awaiting(s, keys);
    hide WellConfigured, OneErrorBit;
  }

  lemma SuccessForm(c: Cache, n: Node, keys: seq<AppKey>, which: nat, h: nat)
    requires Works(c.state) && c.wait && !c.oom
    ensures var o := Handle(c, n, keys, which, Success, Accepted(h));
            o.c.bgcall == c.bgcall && o.c.bgevt == c.bgevt && !o.c.oom
  {
    hide CommandFor, ShapeOf, On, Turn, AfterDcd;
  }

  /** Nothing goes wrong while a node is served: when it is released it is marked done. */
  lemma {:induction false} ServedRun(s: Session, acts: seq<Act>, keys: seq<AppKey>)
    requires OnTheWay(s, keys) && Runs(s, acts, keys) && AllServe(acts)
    ensures OnTheWay(After(s, acts, keys), keys)
    decreases |acts|
  {
    hide OnTheWay;
    if acts != [] {
      assert Serves(acts[0]);
      ServedStep(s, acts[0], keys);
      hide Step, Legal, Benign, Serves;
      ServedRun(Step(s, acts[0], keys).s, acts[1..], keys);
    }
  }

  lemma ServedStep(s: Session, act: Act, keys: seq<AppKey>)
    requires OnTheWay(s, keys) && Legal(s, act) && Serves(act)
    ensures Benign(s, act, keys) && (act.Reply? ==> Works(s.c.state))
    ensures OnTheWay(Step(s, act, keys).s, keys)
  {
    match act {
      case EnginePass(_, ans, effect) => PassOnTheWay(s, keys, ans.handle, effect);
      case Page =>
        StepSound(s, Page, keys);
        Awaiting(s, keys);
        hide Sound;
      case Reply(_, effect, ans) => ReplyOnTheWay(s, keys, ans.handle, effect);
    }
  }

  /* Rounds of service */

  /** The engine passes of a run, one for each round. */
  function Passes(acts: seq<Act>): nat {
    if acts == [] then 0 else (if acts[0].EnginePass? then 1 else 0) + Passes(acts[1..])
  }

  const PASS := EnginePass(false, Accepted(0), false)

  const SUCCESS := Reply(Success, true, Accepted(0))

  lemma {:induction false} PassesJoin(acts: seq<Act>, more: seq<Act>)
    ensures Passes(acts + more) == Passes(acts) + Passes(more)
  {
    if acts == [] {
      assert acts + more == more;
    } else {
      assert (acts + more)[1..] == acts[1..] + more;
      PassesJoin(acts[1..], more);
    }
  }

  lemma OneAct(s: Session, act: Act, keys: seq<AppKey>)
    requires OnTheWay(s, keys) && Legal(s, act) && Serves(act)
    ensures act.Reply? ==> Works(s.c.state)
    ensures Runs(s, [act], keys) && After(s, [act], keys) == Step(s, act, keys).s
    ensures AllServe([act]) && Passes([act]) == (if act.EnginePass? then 1 else 0)
    ensures OnTheWay(After(s, [act], keys), keys)
  {
    ServedStep(s, act, keys);
    hide Step, Legal, Benign, OnTheWay;
    assert [act][1..] == [];
  }

  /** A slot that waits gets its answer, after the page when the page is due. */
  lemma Answered(s: Session, keys: seq<AppKey>) returns (acts: seq<Act>)
    requires OnTheWay(s, keys) && s.w.out.Some?
    ensures Runs(s, acts, keys) && AllServe(acts) && Passes(acts) == 0
    ensures var t := After(s, acts, keys);
            OnTheWay(t, keys) && SessionBudget(t, keys) < SessionBudget(s, keys)
  {
    Awaiting(s, keys);
    if s.w.out == Some(GetDcd) {
      OneAct(s, Page, keys);
      StepSpends(s, Page, keys);
      var t := Step(s, Page, keys).s;
      assert t.w == s.w && t.c.dcd == t.w.comp && t.c.node.Some?;
      OneAct(t, SUCCESS, keys);
      StepSpends(t, SUCCESS, keys);
      acts := [Page] + [SUCCESS];
      hide Step, OnTheWay, SessionBudget, Runs, After;
      RunsJoin(s, [Page], [SUCCESS], keys);
      PassesJoin([Page], [SUCCESS]);
    } else {
      OneAct(s, SUCCESS, keys);
      StepSpends(s, SUCCESS, keys);
      acts := [SUCCESS];
      hide Step, OnTheWay, SessionBudget;
    }
  }

  /** A round: a pass, and an answer when the slot is still in use. */
  lemma Round(s: Session, keys: seq<AppKey>) returns (acts: seq<Act>)
    requires OnTheWay(s, keys) && s.c.node.Some?
    ensures Runs(s, acts, keys) && AllServe(acts) && Passes(acts) == 1
    ensures var t := After(s, acts, keys);
            OnTheWay(t, keys) && (t.c == EMPTY || SessionBudget(t, keys) < SessionBudget(s, keys))
  {
    OneAct(s, PASS, keys);
    StepSpends(s, PASS, keys);
    NeverIdle(s, PASS, keys);
    var t := Step(s, PASS, keys).s;
    hide Step, OnTheWay, SessionBudget;
    if t.c == EMPTY {
      acts := [PASS];
    } else {
      var more := Answered(t, keys);
      hide Runs, After;
      RunsJoin(s, [PASS], more, keys);
      PassesJoin([PASS], more);
      acts := [PASS] + more;
    }
  }

  /** Rounds until the slot is released: no more than its budget and one. */
  lemma Rounds(s: Session, keys: seq<AppKey>) returns (acts: seq<Act>)
    requires OnTheWay(s, keys) && s.c.node.Some?
    ensures Runs(s, acts, keys) && AllServe(acts) && Passes(acts) <= SessionBudget(s, keys) + 1
    ensures OnTheWay(After(s, acts, keys), keys) && After(s, acts, keys).c == EMPTY
    decreases SessionBudget(s, keys)
  {
    var first := Round(s, keys);
    var t := After(s, first, keys);
    if t.c == EMPTY {
      acts := first;
    } else {
      assert t.c.node.Some?;
      hide OnTheWay, SessionBudget;
      var rest := Rounds(t, keys);
      hide Runs, After;
      RunsJoin(s, first, rest, keys);
      PassesJoin(first, rest);
      acts := first + rest;
    }
  }

  lemma LoadedOnTheWay(s: Session, id: nat, keys: seq<AppKey>)
    requires Sound(s, keys) && Legal(s, Load(id, false))
    ensures OnTheWay(Step(s, Load(id, false), keys).s, keys)
  {
    StepSound(s, Load(id, false), keys);
    hide Sound;
  }

  /** Whatever the order of passes, pages and successes, a node that is loaded for configuration
      and served is marked done when it is released, without an error. */
  lemma ServedMeansDone(s: Session, id: nat, acts: seq<Act>, keys: seq<AppKey>)
    requires Sound(s, keys) && Legal(s, Load(id, false)) && AllServe(acts)
    requires Runs(Step(s, Load(id, false), keys).s, acts, keys)
    ensures var t := After(Step(s, Load(id, false), keys).s, acts, keys);
            !t.w.dev.wiped && (t.c == EMPTY ==> t.n.done && t.n.err == 0)
  {
    LoadedOnTheWay(s, id, keys);
    ServedRun(Step(s, Load(id, false), keys).s, acts, keys);
    hide Step, Sound, Runs, After;
  }

  /** And served in rounds it is released, after no more of them than the work of its states and one. */
  lemma ServedNodeIsDone(s: Session, id: nat, keys: seq<AppKey>) returns (acts: seq<Act>)
    requires Sound(s, keys) && Legal(s, Load(id, false))
    ensures AllServe(acts) && Passes(acts) <= Work(GET_DCD, s.n, keys, s.w.comp) + 1
    ensures Runs(s, [Load(id, false)] + acts, keys)
    ensures var t := After(s, [Load(id, false)] + acts, keys);
            t.c == EMPTY && t.n.done && t.n.err == 0 && !t.w.dev.wiped
  {
    var load := Load(id, false);
    LoadedOnTheWay(s, id, keys);
    StepSpends(s, load, keys);
    var t := Step(s, load, keys).s;
    hide Work, SessionBudget;
    acts := Rounds(t, keys);
    assert ([load] + acts)[1..] == acts;
    hide Step, Legal, Sound;
  }
}
