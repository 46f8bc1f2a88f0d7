/** The two answers the callbacks do not recover from, exactly. */
module SessionExact {
  import opened Bits
  import opened Odometer
  import opened Mesh
  import opened Slot
  import opened Session
  import opened SessionSound
  import opened SessionRuns
  import opened Termination

  /** A guard-timer resend answered out-of-memory leaves the slot both awaiting a
      response and out of memory. */
  lemma GuardOomBreaks(c: Cache, n: Node, keys: seq<AppKey>, comp: seq<Element>, timeUp: bool)
    requires Active(c, n, keys, comp) && GuardFires(c, timeUp)
    ensures var o := Pass(c, n, keys, timeUp, OutOfMemory);
            o.ok && o.release == Kept && o.c == c.(oom := true) && o.n == n
  {
  }

  /** The next resend, once accepted, disarms the timer it set, and the pass after that
      fires the ASSERT that an out-of-memory slot awaits no response. */
  lemma GuardOomAborts(c: Cache, n: Node, keys: seq<AppKey>, comp: seq<Element>, h: nat, h': nat, timeUp: bool)
    requires Active(c, n, keys, comp) && GuardFires(c, true)
    ensures var c1 := Pass(c, n, keys, true, OutOfMemory).c;
            var c2 := Pass(c1, n, keys, true, Accepted(h)).c;
            c2.wait && c2.oom && !c2.armed && !Pass(c2, n, keys, timeUp, Accepted(h')).ok
  {
  }

  /** Steps of which the last one, and no other, fires an ASSERT. */
  predicate AbortsAtEnd(s: Session, acts: seq<Act>, keys: seq<AppKey>)
    decreases |acts|
  {
    && acts != [] && Legal(s, acts[0]) && (acts[0].Reply? ==> Works(s.c.state))
    && var o := Step(s, acts[0], keys);
       if |acts| == 1 then !o.ok else o.ok && AbortsAtEnd(o.s, acts[1..], keys)
  }

  /** Every node never worked on can come to this: loaded, its first command accepted and its
      guard timer expired, a resend answered out-of-memory, and two passes more. */
  lemma RunToGuardAbort(s: Session, id: nat, keys: seq<AppKey>, h: nat, h': nat, ans: Answer, timeUp: bool)
    requires Begins(s, keys)
    ensures var acts := [Load(id, false), EnginePass(false, Accepted(h), false)];
            var rest := [EnginePass(true, OutOfMemory, false), EnginePass(true, Accepted(h'), false),
                EnginePass(timeUp, ans, false)];
            Runs(s, acts, keys) && AbortsAtEnd(After(s, acts, keys), rest, keys)
  {
    var load, pass := Load(id, false), EnginePass(false, Accepted(h), false);
    BeginsWell(s, keys);
    StepSound(s, load, keys);
    var t0 := Step(s, load, keys).s;
    StepSound(t0, pass, keys);
    var t := Step(t0, pass, keys).s;
    FirstPass(t0.c, t0.n, keys, id, h);
    assert [load, pass][1..] == [pass] && [pass][1..] == [];
    assert Legal(t0, pass) && Benign(t0, pass, keys);
    assert Runs(t0, [pass], keys) && After(t0, [pass], keys) == t by {
      assert Runs(t, [], keys);
      hide Step, Sound;
    }
    assert Runs(s, [load, pass], keys) && After(s, [load, pass], keys) == t;
    assert Active(t.c, t.n, keys, t.w.comp) && GuardFires(t.c, true) && t.c.node.Some?;
    hide Begins, Sound, Active, WellConfigured, Runs, After, Pass;
    GuardAborts(t, keys, h', ans, timeUp);
  }

  lemma GuardAborts(t: Session, keys: seq<AppKey>, h: nat, ans: Answer, timeUp: bool)
    requires Active(t.c, t.n, keys, t.w.comp) && GuardFires(t.c, true)
    ensures AbortsAtEnd(t, [EnginePass(true, OutOfMemory, false), EnginePass(true, Accepted(h), false),
            EnginePass(timeUp, ans, false)], keys)
  {
    GuardOomBreaks(t.c, t.n, keys, t.w.comp, true);
    GuardOomForm(t.c, t.n, keys, t.w.comp, h, ans, timeUp);
    hide Pass, Active, GuardFires;
    var a, b, c := EnginePass(true, OutOfMemory, false), EnginePass(true, Accepted(h), false),
        EnginePass(timeUp, ans, false);
    assert [a, b, c][1..] == [b, c] && [b, c][1..] == [c];
    var u := Step(t, a, keys).s;
    assert u.c == t.c.(oom := true) && u.n == t.n;
    var v := Step(u, b, keys).s;
    assert AbortsAtEnd(v, [c], keys);
    assert AbortsAtEnd(u, [b, c], keys);
  }

  lemma FirstPass(c: Cache, n: Node, keys: seq<AppKey>, id: nat, h: nat)
    requires c == LoadSlot(id, false) && n.cfg.addr != 0
    ensures var o := Pass(c, n, keys, false, Accepted(h));
            o.release == Kept && o.c == c.(state := GET_DCD, next := GET_DCD, wait := true, armed := true, handle := h)
  {
  }

  lemma GuardOomForm(c: Cache, n: Node, keys: seq<AppKey>, comp: seq<Element>, h: nat, ans: Answer, timeUp: bool)
    requires Active(c, n, keys, comp) && GuardFires(c, true)
    ensures var o := Pass(c.(oom := true), n, keys, true, Accepted(h));
            && o.ok && o.n == n && o.c.node == c.node && !Pass(o.c, o.n, keys, timeUp, ans).ok
  {
    hide CommandFor, Guard;
  }

  /** "Insufficient resources" for the last model after a retry: the resend either fires
      the ASSERT that a retry is left, or leaves the state over and yet at work. */
  lemma StrandedBreaks(c: Cache, n: Node, keys: seq<AppKey>, comp: seq<Element>, which: nat, ans: Answer)
    requires Active(c, n, keys, comp) && c.wait && c.state == ADD_SUB && c.ever && WellConfigured(n, comp, keys)
    requires TurnModel(ShapeOf(ADD_SUB, n, keys, comp), c.it).done && !ans.Refused?
    ensures var o := Handle(c, n, keys, which, InsufficientResources, ans);
            && (o.ok <==> !(ans.Accepted? && c.remaining == 0))
            && o.c.next == TO_NEXT && (o.c.wait || o.c.oom)
  {
    StrandedForm(c, n, keys, comp, which, ans);
    hide CommandFor, Guard, Handle, WellConfigured;
  }

  /** After a guard-timer resend answered out-of-memory the session is not sound. */
  lemma GuardOomUnsound(s: Session, act: Act, keys: seq<AppKey>)
    requires Sound(s, keys) && Legal(s, act) && act.EnginePass? && !Benign(s, act, keys)
    ensures !Sound(Step(s, act, keys).s, keys)
  {
    GuardOomBreaks(s.c, s.n, keys, s.w.comp, act.timeUp);
    hide Pass, WellConfigured, OneErrorBit, CommandFor, Guard;
    var s' := Step(s, act, keys).s;
    assert s'.c.wait && s'.c.oom;
  }

  /** After "insufficient resources" for the last model, reported after a retry, it is not either. */
  lemma StrandedUnsound(s: Session, act: Act, keys: seq<AppKey>)
    requires Sound(s, keys) && Legal(s, act) && act.Reply? && !Benign(s, act, keys)
    ensures Works(s.c.state) && !Sound(Step(s, act, keys).s, keys)
  {
    Awaiting(s, keys);
    StrandedBreaks(s.c, s.n, keys, s.w.comp, WhichOf(s.w.out.value), act.ans);
    hide Handle, WellConfigured, OneErrorBit, CommandFor, Guard, On;
    var s' := Step(s, act, keys).s;
    assert s'.c.next == TO_NEXT && (s'.c.wait || s'.c.oom);
  }

  /** In a sound session a step fires no ASSERT and leaves the session sound exactly when
      it is none of the two. */
  lemma BenignExactly(s: Session, act: Act, keys: seq<AppKey>)
    requires Sound(s, keys) && Legal(s, act)
    ensures act.Reply? ==> Works(s.c.state)
    ensures Step(s, act, keys).ok && Sound(Step(s, act, keys).s, keys) <==> Benign(s, act, keys)
  {
    hide Sound;
    if act.Reply? {
      Awaiting(s, keys);
    }
    if Benign(s, act, keys) {
      StepSound(s, act, keys);
    } else if act.EnginePass? {
      GuardOomUnsound(s, act, keys);
    } else {
      StrandedUnsound(s, act, keys);
    }
    hide Step, Legal;
  }

  /* The words 5, 6 and 7 */

  /** A slot in Get DCD that waits for nothing, has nothing to resend and nowhere to go. */
  predicate Stuck(s: Session) {
    && s.c.node.Some? && s.c.state == GET_DCD && s.c.next == GET_DCD
    && NoFlags(s.c) && s.w.out.None?
  }

  /** The success of Get DCD leaves the slot stuck exactly when the node's error word is 5, 6
      or 7; with any other word there is a state to enter. */
  lemma DcdSticksExactly(s: Session, effect: bool, ans: Answer, keys: seq<AppKey>)
    requires s.c.node.Some? && s.c.state == GET_DCD && s.c.next == GET_DCD && s.c.wait && !s.c.oom
    requires Legal(s, Reply(Success, effect, ans)) && s.w.out == Some(GetDcd)
    ensures var t := Step(s, Reply(Success, effect, ans), keys).s;
            && (Stuck(t) <==> 5 <= s.n.err <= 7)
            && (!Stuck(t) <==> t.c.next != t.c.state)
  {
    DcdStuckExactly(s.n.err);
    hide AfterDcd;
  }

  /** And stuck it stays: no run changes anything any more. */
  lemma {:induction false} StuckForever(s: Session, acts: seq<Act>, keys: seq<AppKey>)
    requires Stuck(s) && Runs(s, acts, keys)
    ensures After(s, acts, keys) == s
    decreases |acts|
  {
    if acts != [] {
      assert Step(s, acts[0], keys).s == s;
      StuckForever(s, acts[1..], keys);
    }
  }

  /* A run to the failed ASSERT */

  /** A command that is awaited can be lost until no retry is left; nothing else changes. */
  lemma {:induction false} RetriesCanRunOut(s: Session, keys: seq<AppKey>)
    requires Sound(s, keys) && s.w.out.Some?
    ensures Runs(s, Lost(RetriesLeft(s.c)), keys)
    ensures var t := After(s, Lost(RetriesLeft(s.c)), keys);
            && Sound(t, keys) && t.w.out == s.w.out && t.w.comp == s.w.comp && t.n == s.n
            && t.c.state == s.c.state && t.c.it == s.c.it && t.c.ever && t.c.remaining == 0
    decreases RetriesLeft(s.c)
  {
    Awaiting(s, keys);
    if RetriesLeft(s.c) > 0 {
      var act := Reply(Timeout, false, Accepted(0));
      var t := Step(s, act, keys).s;
      LostForm(s.c, s.n, keys, s.w.comp, WhichOf(s.w.out.value));
      assert Legal(s, act) && Benign(s, act, keys);
      StepSound(s, act, keys);
      hide Handle, Sound, Active, WellConfigured, CommandFor, Legal, Benign;
      assert t.w.out == s.w.out;
      assert Lost(RetriesLeft(s.c))[0] == act && Lost(RetriesLeft(s.c))[1..] == Lost(RetriesLeft(t.c));
      RetriesCanRunOut(t, keys);
    }
  }

  /** A command awaited for the first time can time out and go out again five times, and three
      times for a reset.  With the next timeout, and no earlier, it is given up: a reset as if it
      had succeeded, any other with the error bit of its state. */
  lemma GivenUpAfter(s: Session, keys: seq<AppKey>, effect: bool, ans: Answer)
    requires Sound(s, keys) && s.w.out.Some? && !s.c.ever
    ensures var resends := if s.c.state == RM then 3 else 5;
            && Runs(s, Lost(resends), keys)
            && var t := After(s, Lost(resends), keys);
               && t.w.out == s.w.out && t.c.state == s.c.state && t.c.it == s.c.it && t.n == s.n
               && var act := Reply(Timeout, effect, ans);
                  && Legal(t, act) && Works(t.c.state)
                  && var u := Step(t, act, keys).s;
                     && u.w.out.None? && u.n == s.n && u.c.state == s.c.state
                     && u.c.bgcall == 0
                     && (if s.c.state == RM then u.c.next == TO_NEXT && u.c.bgevt == 0
                         else u.c.next == END && u.c.bgevt == Pow2(s.c.state))
  {
    RetriesCanRunOut(s, keys);
    var t := After(s, Lost(RetriesLeft(s.c)), keys);
    Awaiting(t, keys);
    hide Runs, After, Lost, Sound;
    LastTimeout(t.c, t.n, keys, t.w.comp, WhichOf(t.w.out.value), ans);
    hide Handle, Active;
  }

  lemma LastTimeout(c: Cache, n: Node, keys: seq<AppKey>, comp: seq<Element>, which: nat, ans: Answer)
    requires Active(c, n, keys, comp) && c.wait && c.ever && c.remaining == 0
    ensures var o := Handle(c, n, keys, which, Timeout, ans);
            && o.n == n && o.cmd.None? && o.c.state == c.state && o.c.bgcall == 0
            && (if c.state == RM then o.c.next == TO_NEXT && o.c.bgevt == 0
                else o.c.next == END && o.c.bgevt == Pow2(c.state))
  {
    hide CommandFor, Guard;
    SetBitOfZero(c.state);
  }

  lemma LostForm(c: Cache, n: Node, keys: seq<AppKey>, comp: seq<Element>, which: nat)
    requires Active(c, n, keys, comp) && c.wait && RetriesLeft(c) > 0
    ensures var o := Handle(c, n, keys, which, Timeout, Accepted(0));
            && o.n == n && o.cmd.Some? && CommandFor(c.state, c.it, c.dcd, n, keys) == Cmd(o.cmd.value)
            && o.c == c.(armed := true, ever := true, remaining := RetriesLeft(c) - 1, handle := 0)
  {
    hide CommandFor, Guard;
  }

  /** Wherever a run awaits the subscription of the last model, it can go on by losses and an
      "insufficient resources" to where the ASSERT of the retry callback fires. */
  lemma StrandedAborts(s: Session, keys: seq<AppKey>)
    requires Sound(s, keys) && s.w.out.Some? && s.c.state == ADD_SUB
    requires On(ShapeOf(ADD_SUB, s.n, keys, s.w.comp), s.c.it)
             && TurnModel(ShapeOf(ADD_SUB, s.n, keys, s.w.comp), s.c.it).done
    ensures Runs(s, Lost(RetriesLeft(s.c)), keys)
    ensures var t := After(s, Lost(RetriesLeft(s.c)), keys);
            var act := Reply(InsufficientResources, false, Accepted(0));
            Legal(t, act) && Works(t.c.state) && !Step(t, act, keys).ok
  {
    RetriesCanRunOut(s, keys);
    var t := After(s, Lost(RetriesLeft(s.c)), keys);
    Awaiting(t, keys);
    hide Runs, After, Lost;
    StrandedBreaks(t.c, t.n, keys, t.w.comp, WhichOf(t.w.out.value), Accepted(0));
    hide Handle, Turn, TurnModel;
  }

  /* One node with one model and one subscription address */

  const ONE_MODEL := [Element([0x1000], [])]

  const ONE_NODE := Node(NodeConfig(5, [], None, [0xC000], None, None, None, 0), 0, 0, false)

  const NO_DEVICE := Device({}, {}, map[], map[], map[], false)

  const ONE_SESSION := Session(EMPTY, ONE_NODE, World(ONE_MODEL, {}, NO_DEVICE, [], None))

  /** Its run up to the one subscription command. */
  const TO_SUBSCRIPTION :=
    [Load(5, false), EnginePass(false, Accepted(0), false), Page, Reply(Success, true, Accepted(0)),
     EnginePass(false, Accepted(0), false)]

  /** Such a run from a node never worked on: after five losses of its one subscription
      command the answer "insufficient resources" makes the ASSERT fire. */
  lemma RunThatAborts() returns (s: Session, acts: seq<Act>, last: Act)
    ensures s == ONE_SESSION && acts == TO_SUBSCRIPTION + Lost(5)
    ensures last == Reply(InsufficientResources, false, Accepted(0))
    ensures Begins(s, []) && Runs(s, acts, []) && AbortsAtEnd(After(s, acts, []), [last], [])
  {
    hide Runs, After, Sound, Step, Legal;
    s := ONE_SESSION;
    OneBegins();
    OneRuns();
    BeginsWell(s, []);
    RunsKeep(s, TO_SUBSCRIPTION, []);
    var t := After(s, TO_SUBSCRIPTION, []);
    StrandedAborts(t, []);
    acts := TO_SUBSCRIPTION + Lost(5);
    RunsJoin(s, TO_SUBSCRIPTION, Lost(5), []);
    last := Reply(InsufficientResources, false, Accepted(0));
  }

  lemma OneBegins()
    ensures Begins(ONE_SESSION, [])
  {
    assert Diff(ONE_NODE) == 0;
    forall b: nat
      ensures !Bit(0, b)
    {
      ZeroHasNoBits(b);
    }
  }

  /** The slot after Get DCD. */
  predicate DcdDone(s: Session) {
    && s.c == EMPTY.(node := Some(5), state := GET_DCD, next := TO_NEXT, dcd := ONE_MODEL)
    && s.n == ONE_NODE && s.w.out.None? && s.w.comp == ONE_MODEL
  }

  lemma OneGetsDcd()
    ensures var a, s := TO_SUBSCRIPTION[..4], ONE_SESSION;
            Runs(s, a, []) && DcdDone(After(s, a, []))
  {
    var a := TO_SUBSCRIPTION;
    var s1 := Step(ONE_SESSION, a[0], []).s;
    var s2 := Step(s1, a[1], []).s;
    assert s2.c == EMPTY.(node := Some(5), state := GET_DCD, next := GET_DCD, wait := true, armed := true);
    assert s2.w.out == Some(GetDcd);
    var s3 := Step(s2, a[2], []).s;
    var s4 := Step(s3, a[3], []).s;
    assert Legal(s1, a[1]) && Benign(s1, a[1], []) && Legal(s2, a[2]) && Legal(s3, a[3]) && Benign(s3, a[3], []);
    hide Step, Legal, Benign;
    PrependAct(s3, a[3], [], []);
    PrependAct(s2, a[2], [a[3]], []);
    PrependAct(s1, a[1], [a[2], a[3]], []);
    PrependAct(ONE_SESSION, a[0], [a[1], a[2], a[3]], []);
    assert a[..4] == [a[0]] + [a[1], a[2], a[3]];
  }

  lemma OneSubscribes(s: Session)
    requires DcdDone(s)
    ensures var pass := EnginePass(false, Accepted(0), false);
            Legal(s, pass) && Benign(s, pass, [])
            && var t := Step(s, pass, []).s;
               && t.c.state == ADD_SUB && !t.c.ever && t.w.out.Some?
               && On(ShapeOf(ADD_SUB, t.n, [], t.w.comp), t.c.it)
                  && TurnModel(ShapeOf(ADD_SUB, t.n, [], t.w.comp), t.c.it).done
  {
    var sh := ShapeOf(ADD_SUB, ONE_NODE, [], ONE_MODEL);
    assert sh.models[0] == [true] && On(sh, ORIGIN);
    assert Diff(ONE_NODE) == 0;
  }

  lemma OneRuns()
    ensures Runs(ONE_SESSION, TO_SUBSCRIPTION, [])
    ensures var s := After(ONE_SESSION, TO_SUBSCRIPTION, []);
            && s.c.state == ADD_SUB && !s.c.ever && s.w.out.Some?
            && On(ShapeOf(ADD_SUB, s.n, [], s.w.comp), s.c.it)
               && TurnModel(ShapeOf(ADD_SUB, s.n, [], s.w.comp), s.c.it).done
  {
    hide Step, Legal, Benign, DcdDone;
    OneGetsDcd();
    var a := TO_SUBSCRIPTION;
    var s := After(ONE_SESSION, a[..4], []);
    OneSubscribes(s);
    var pass := EnginePass(false, Accepted(0), false);
    PrependAct(s, pass, [], []);
    assert a == a[..4] + [pass];
    hide Runs, After;
    RunsJoin(ONE_SESSION, a[..4], [pass], []);
  }
}
